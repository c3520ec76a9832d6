// Which mode an automatic pool is in (daemon/autostrategy.go): a two-state
// machine driven by the pool's statistics, agile after a flapping poll, stable
// again once the calm time has passed without one.
module AutoStrategy {
  import opened Wrappers
  import opened PoolHistory

  const AUTO_MIN_FLAPPING := 2

  // One auto pool's statistics over the tuning's window.
  datatype Window = Window(key: string, health: PoolHealth)

  datatype Tuning = Tuning(pickLoss: int, flips: int, flappingPct: int, calm: int)

  datatype Reason = NothingSeen | PickDied(times: int) | NodesFlipped(flappers: nat, observed: nat) | CalmAgain

  datatype AutoState = AutoState(agile: bool, since: int, lastFlappy: int, reason: Reason)

  datatype Switch = Switch(key: string, agile: bool, reason: Reason)

  // The zero time a new state starts with.
  const NO_TIME := 0

  predicate Observed(n: NodeHealth) { n.uptimePct >= 0 }

  predicate Flapper(n: NodeHealth, t: Tuning) { Observed(n) && n.flips >= t.flips }

  // Of the first n nodes, how many have a known uptime, and how many flip too often.
  function ObservedNodes(nodes: seq<NodeHealth>, n: nat): nat
    requires n <= |nodes|
  {
    if n == 0 then 0 else ObservedNodes(nodes, n - 1) + if Observed(nodes[n - 1]) then 1 else 0
  }

  function Flappers(nodes: seq<NodeHealth>, n: nat, t: Tuning): nat
    requires n <= |nodes|
  {
    if n == 0 then 0 else Flappers(nodes, n - 1, t) + if Flapper(nodes[n - 1], t) then 1 else 0
  }

  // Why the pool counts as flapping, if it does.
  function Flappy(p: Window, t: Tuning): Option<Reason> {
    var n := |p.health.nodes|;
    var flappers, observed := Flappers(p.health.nodes, n, t), ObservedNodes(p.health.nodes, n);
    if t.pickLoss > 0 && p.health.pickLoss >= t.pickLoss then Some(PickDied(p.health.pickLoss))
    else if flappers >= AUTO_MIN_FLAPPING && flappers * 100 >= t.flappingPct * observed then
      Some(NodesFlipped(flappers, observed))
    else None
  }

  // The positions of the nodes whose uptime is known, and of those that flip too often.
  function KnownNodes(nodes: seq<NodeHealth>): set<nat> {
    set i: nat | i < |nodes| && nodes[i].uptimePct >= 0
  }

  function FlippingNodes(nodes: seq<NodeHealth>, t: Tuning): set<nat> {
    set i: nat | i < |nodes| && nodes[i].uptimePct >= 0 && nodes[i].flips >= t.flips
  }

  // A pool flaps when it lost its pick often enough, or when at least two nodes
  // flip often and they are a large enough part of those observed.
  predicate LosesPicks(p: Window, t: Tuning) { p.health.pickLoss >= t.pickLoss > 0 }

  predicate ManyFlip(p: Window, t: Tuning) {
    var flipping, known := |FlippingNodes(p.health.nodes, t)|, |KnownNodes(p.health.nodes)|;
    flipping >= 2 && flipping * 100 >= t.flappingPct * known
  }

  lemma FlappyIff(p: Window, t: Tuning)
    ensures Flappy(p, t).Some? <==> LosesPicks(p, t) || ManyFlip(p, t)
    ensures LosesPicks(p, t) ==> Flappy(p, t) == Some(PickDied(p.health.pickLoss))
    ensures !LosesPicks(p, t) && ManyFlip(p, t) ==>
              Flappy(p, t) ==
                Some(NodesFlipped(|FlippingNodes(p.health.nodes, t)|, |KnownNodes(p.health.nodes)|))
  {
    var nodes := p.health.nodes;
    CountsAre(nodes, |nodes|, t);
    assert nodes[..|nodes|] == nodes;
    hide FlippingNodes, KnownNodes, Flappers, ObservedNodes;
  }

  lemma {:induction false} CountsAre(nodes: seq<NodeHealth>, n: nat, t: Tuning)
    requires n <= |nodes|
    ensures Flappers(nodes, n, t) == |FlippingNodes(nodes[..n], t)| &&
            ObservedNodes(nodes, n) == |KnownNodes(nodes[..n])|
  {
    if n > 0 {
      CountsAre(nodes, n - 1, t);
      FlippingOneMore(nodes, n - 1, t);
      KnownOneMore(nodes, n - 1);
      hide FlippingNodes, KnownNodes;
    }
  }

  lemma FlippingOneMore(nodes: seq<NodeHealth>, n: nat, t: Tuning)
    requires n < |nodes|
    ensures |FlippingNodes(nodes[..n + 1], t)| == |FlippingNodes(nodes[..n], t)| + if Flapper(nodes[n], t) then 1 else 0
  {
    var a, b := FlippingNodes(nodes[..n], t), FlippingNodes(nodes[..n + 1], t);
    assert nodes[..n + 1] == nodes[..n] + [nodes[n]];
    assert n !in a;
    assert b == if Flapper(nodes[n], t) then a + {n} else a;
  }

  lemma KnownOneMore(nodes: seq<NodeHealth>, n: nat)
    requires n < |nodes|
    ensures |KnownNodes(nodes[..n + 1])| == |KnownNodes(nodes[..n])| + if Observed(nodes[n]) then 1 else 0
  {
    var a, b := KnownNodes(nodes[..n]), KnownNodes(nodes[..n + 1]);
    assert nodes[..n + 1] == nodes[..n] + [nodes[n]];
    assert n !in a;
    assert b == if Observed(nodes[n]) then a + {n} else a;
  }

  method Flapping(p: Window, t: Tuning) returns (why: Option<Reason>)
    ensures why == Flappy(p, t)
    ensures why.Some? <==> LosesPicks(p, t) || ManyFlip(p, t)
  {
    FlappyIff(p, t);
    hide ManyFlip;
    if t.pickLoss > 0 && p.health.pickLoss >= t.pickLoss { return Some(PickDied(p.health.pickLoss)); }
    var observed, flappers := 0, 0;
    for i := 0 to |p.health.nodes|
      invariant observed == ObservedNodes(p.health.nodes, i) && flappers == Flappers(p.health.nodes, i, t)
    {
      if p.health.nodes[i].uptimePct >= 0 {
        observed := observed + 1;
        if p.health.nodes[i].flips >= t.flips { flappers := flappers + 1; }
      }
    }
    why := if flappers >= AUTO_MIN_FLAPPING && flappers * 100 >= t.flappingPct * observed
           then Some(NodesFlipped(flappers, observed)) else None;
  }

  // ---- one pool, one poll -----------------------------------------------------------

  datatype Obs = NotSeen | Quiet | Flaps(why: Reason)

  function Fresh(now: int): AutoState { AutoState(false, now, NO_TIME, NothingSeen) }

  function Judge(st: AutoState, now: int, why: Option<Reason>, calm: int): AutoState {
    if why.Some? then
      var st := st.(lastFlappy := now);
      if st.agile then st else st.(agile := true, since := now, reason := why.value)
    else if st.agile && now - st.lastFlappy >= calm then st.(agile := false, since := now, reason := CalmAgain)
    else st
  }

  function Seen(pools: map<string, AutoState>, k: string, now: int): AutoState {
    if k in pools then pools[k] else Fresh(now)
  }

  // The whole poll: the states and the switches made.
  function JudgeAll(pools: map<string, AutoState>, windows: seq<Window>, auto: set<string>, t: Tuning, now: int)
    : (map<string, AutoState>, seq<Switch>)
  {
    if windows == [] then (pools, [])
    else
      var (ps, events) := JudgeAll(pools, windows[..|windows| - 1], auto, t, now);
      var p := windows[|windows| - 1];
      if p.key !in auto then (ps, events)
      else
        var was := Seen(ps, p.key, now);
        var after := Judge(was, now, Flappy(p, t), t.calm);
        (ps[p.key := after],
         if was.agile == after.agile then events else events + [Switch(p.key, after.agile, after.reason)])
  }

  function Kept(pools: map<string, AutoState>, auto: set<string>): map<string, AutoState> {
    map k | k in pools && k in auto :: pools[k]
  }

  class Classifier {
    var pools: map<string, AutoState>

    constructor ()
      ensures pools == map[]
    {
      pools := map[];
    }

    // One poll: a pool taken off auto loses its state, every other one moves on.
    method Evaluate(windows: seq<Window>, auto: set<string>, t: Tuning, now: int) returns (events: seq<Switch>)
      modifies this
      ensures (pools, events) == JudgeAll(Kept(old(pools), auto), windows, auto, t, now)
    {
      pools := map k | k in pools && k in auto :: pools[k];
      ghost var kept := pools;
      events := [];
      for i := 0 to |windows|
        invariant (pools, events) == JudgeAll(kept, windows[..i], auto, t, now)
      {
        assert windows[..i + 1][..i] == windows[..i];
        var p := windows[i];
        if p.key !in auto { continue; }
        ghost var was := pools;
        var st := if p.key in pools then pools[p.key] else AutoState(false, now, NO_TIME, NothingSeen);
        var why := Flapping(p, t);
        if why.Some? {
          st := st.(lastFlappy := now);
          if !st.agile {
            st := st.(agile := true, since := now, reason := why.value);
            events := events + [Switch(p.key, true, why.value)];
          }
        } else if st.agile && now - st.lastFlappy >= t.calm {
          st := st.(agile := false, since := now, reason := CalmAgain);
          events := events + [Switch(p.key, false, CalmAgain)];
        }
        assert st == Judge(Seen(was, p.key, now), now, why, t.calm);
        pools := pools[p.key := st];
      }
      assert windows[..|windows|] == windows;
    }
  }

  // ---- one pool over many polls ------------------------------------------------------

  datatype Poll = Poll(now: int, windows: seq<Window>, auto: set<string>)

  predicate DistinctKeys(windows: seq<Window>) {
    forall i, j :: 0 <= i < j < |windows| ==> windows[i].key != windows[j].key
  }

  // A clock that does not go back, windows of distinct pools, and one pool auto throughout.
  ghost predicate Run(rounds: seq<Poll>, k: string) {
    && (forall i, j :: 0 <= i < j < |rounds| ==> rounds[i].now <= rounds[j].now)
    && (forall i :: 0 <= i < |rounds| ==> DistinctKeys(rounds[i].windows) && k in rounds[i].auto)
  }

  function PoolsAfter(rounds: seq<Poll>, t: Tuning): map<string, AutoState> {
    if rounds == [] then map[]
    else
      var r := rounds[|rounds| - 1];
      JudgeAll(Kept(PoolsAfter(rounds[..|rounds| - 1], t), r.auto), r.windows, r.auto, t, r.now).0
  }

  function EventsOf(rounds: seq<Poll>, t: Tuning, i: nat): seq<Switch>
    requires i < |rounds|
  {
    var r := rounds[i];
    JudgeAll(Kept(PoolsAfter(rounds[..i], t), r.auto), r.windows, r.auto, t, r.now).1
  }

  // What a round shows of one pool.
  function Sight(windows: seq<Window>, k: string, t: Tuning): Obs {
    if windows == [] then NotSeen
    else
      var p := windows[|windows| - 1];
      if p.key != k then Sight(windows[..|windows| - 1], k, t)
      else match Flappy(p, t)
        case Some(why) => Flaps(why)
        case None => Quiet
  }

  function Next(st: Option<AutoState>, now: int, obs: Obs, calm: int): Option<AutoState> {
    var was := if st.Some? then st.value else Fresh(now);
    match obs
    case NotSeen => st
    case Quiet => Some(Judge(was, now, None, calm))
    case Flaps(why) => Some(Judge(was, now, Some(why), calm))
  }

  predicate Agile(st: Option<AutoState>) { st.Some? && st.value.agile }

  function Of(pools: map<string, AutoState>, k: string): Option<AutoState> {
    if k in pools then Some(pools[k]) else None
  }

  predicate HasSwitch(events: seq<Switch>, k: string, agile: bool) {
    exists e :: e in events && e.key == k && e.agile == agile
  }

  // A poll treats each pool by itself: its state follows its own window, and it
  // is reported exactly when its mode changed.
  lemma {:induction false} PoolByItself(pools: map<string, AutoState>, windows: seq<Window>, auto: set<string>,
                                        t: Tuning, now: int, k: string)
    requires DistinctKeys(windows) && k in auto
    ensures var (ps, events) := JudgeAll(pools, windows, auto, t, now);
            var was, after := Of(pools, k), Of(ps, k);
            && after == Next(was, now, Sight(windows, k, t), t.calm)
            && forall b :: HasSwitch(events, k, b) <==> Agile(was) != Agile(after) && b == Agile(after)
  {
    if windows != [] {
      hide Flappy;
      var init, p := windows[..|windows| - 1], windows[|windows| - 1];
      PoolByItself(pools, init, auto, t, now, k);
      var (ps, events) := JudgeAll(pools, init, auto, t, now);
      var (ps', events') := JudgeAll(pools, windows, auto, t, now);
      if p.key == k { NoSight(init, k, t); }
      if events' != events { SwitchSnoc(events, events'[|events'| - 1], k); }
      hide HasSwitch;
    }
  }

  lemma SwitchSnoc(events: seq<Switch>, e: Switch, k: string)
    ensures forall b :: HasSwitch(events + [e], k, b) <==> HasSwitch(events, k, b) || (e.key == k && e.agile == b)
  {
    assert forall d: Switch :: d in events + [e] <==> d in events || d == e;
  }

  lemma {:induction false} NoSight(windows: seq<Window>, k: string, t: Tuning)
    requires forall i :: 0 <= i < |windows| ==> windows[i].key != k
    ensures Sight(windows, k, t) == NotSeen
  {
    if windows != [] { NoSight(windows[..|windows| - 1], k, t); }
  }

  // ---- how often a pool can switch -----------------------------------------------------

  // The pool's state before the n-th round.
  function StateAt(rounds: seq<Poll>, t: Tuning, k: string, n: nat): Option<AutoState>
    requires n <= |rounds|
  {
    Of(PoolsAfter(rounds[..n], t), k)
  }

  function Mode(rounds: seq<Poll>, t: Tuning, k: string, n: nat): bool
    requires n <= |rounds|
  {
    Agile(StateAt(rounds, t, k, n))
  }

  predicate FlapsAt(rounds: seq<Poll>, t: Tuning, k: string, n: nat)
    requires n < |rounds|
  {
    Sight(rounds[n].windows, k, t).Flaps?
  }

  // The rounds that changed the pool's mode, in order.
  function Switches(rounds: seq<Poll>, t: Tuning, k: string, n: nat): seq<nat>
    requires n <= |rounds|
  {
    if n == 0 then []
    else Switches(rounds, t, k, n - 1) + if Mode(rounds, t, k, n - 1) == Mode(rounds, t, k, n) then [] else [n - 1]
  }

  lemma Step(rounds: seq<Poll>, t: Tuning, k: string, n: nat)
    requires Run(rounds, k) && n < |rounds|
    ensures var r := rounds[n];
            && StateAt(rounds, t, k, n + 1) == Next(StateAt(rounds, t, k, n), r.now, Sight(r.windows, k, t), t.calm)
            && forall b :: HasSwitch(EventsOf(rounds, t, n), k, b) <==>
                             Mode(rounds, t, k, n) != Mode(rounds, t, k, n + 1) && b == Mode(rounds, t, k, n + 1)
  {
    hide Sight, JudgeAll, Next, HasSwitch;
    var r := rounds[n];
    assert rounds[..n + 1][..n] == rounds[..n];
    PoolByItself(Kept(PoolsAfter(rounds[..n], t), r.auto), r.windows, r.auto, t, r.now, k);
  }

  // An agile pool remembers its last flapping round.
  ghost predicate Remembers(rounds: seq<Poll>, t: Tuning, k: string, n: nat)
    requires n <= |rounds|
  {
    var st := StateAt(rounds, t, k, n);
    Agile(st) ==> forall i :: 0 <= i < n && FlapsAt(rounds, t, k, i) ==> rounds[i].now <= st.value.lastFlappy
  }

  lemma {:induction false} AlwaysRemembers(rounds: seq<Poll>, t: Tuning, k: string, n: nat)
    requires Run(rounds, k) && n <= |rounds|
    ensures Remembers(rounds, t, k, n)
  {
    if n > 0 {
      AlwaysRemembers(rounds, t, k, n - 1);
      Step(rounds, t, k, n - 1);
      hide StateAt, Sight;
    }
  }

  // A return to stable comes at least the calm time after every flapping round before it.
  lemma ReturnIsCalm(rounds: seq<Poll>, t: Tuning, k: string, n: nat, i: nat)
    requires Run(rounds, k) && n < |rounds| && Mode(rounds, t, k, n) && !Mode(rounds, t, k, n + 1)
    requires i <= n && FlapsAt(rounds, t, k, i)
    ensures i < n && rounds[n].now - rounds[i].now >= t.calm
  {
    AlwaysRemembers(rounds, t, k, n);
    Step(rounds, t, k, n);
    hide StateAt, Sight;
  }

  // Going agile takes a flapping round.
  lemma AgileIsFlapping(rounds: seq<Poll>, t: Tuning, k: string, n: nat)
    requires Run(rounds, k) && n < |rounds| && !Mode(rounds, t, k, n) && Mode(rounds, t, k, n + 1)
    ensures FlapsAt(rounds, t, k, n)
  {
    Step(rounds, t, k, n);
    hide StateAt, Sight;
  }

  predicate Odd(n: nat) { n % 2 == 1 }

  // Round r makes the i-th switch: to agile for an even i, back to stable for an odd one.
  ghost predicate SwitchAt(rounds: seq<Poll>, t: Tuning, k: string, r: nat, i: nat) {
    r < |rounds| && Mode(rounds, t, k, r) == Odd(i) && Mode(rounds, t, k, r + 1) != Odd(i)
  }

  ghost predicate SwitchesAre(rounds: seq<Poll>, t: Tuning, k: string, n: nat)
    requires n <= |rounds|
  {
    var s := Switches(rounds, t, k, n);
    && (forall i :: 0 <= i < |s| ==> s[i] < n && SwitchAt(rounds, t, k, s[i], i))
    && (forall i, j :: 0 <= i < j < |s| ==> s[i] < s[j])
    && (Mode(rounds, t, k, n) <==> Odd(|s|))
  }

  // Switches alternate, to agile first.
  lemma {:induction false} SwitchesAlternate(rounds: seq<Poll>, t: Tuning, k: string, n: nat)
    requires n <= |rounds|
    ensures SwitchesAre(rounds, t, k, n)
  {
    if n > 0 {
      SwitchesAlternate(rounds, t, k, n - 1);
      SwitchesOn(rounds, t, k, n);
    } else {
      assert rounds[..0] == [];
    }
  }

  lemma SwitchesOn(rounds: seq<Poll>, t: Tuning, k: string, n: nat)
    requires 0 < n <= |rounds| && SwitchesAre(rounds, t, k, n - 1)
    ensures SwitchesAre(rounds, t, k, n)
  {
    hide Mode;
    var s0, s := Switches(rounds, t, k, n - 1), Switches(rounds, t, k, n);
    assert Odd(|s0| + 1) <==> !Odd(|s0|);
    if Mode(rounds, t, k, n - 1) != Mode(rounds, t, k, n) {
      assert s == s0 + [n - 1] && SwitchAt(rounds, t, k, n - 1, |s0|);
    } else {
      assert s == s0;
    }
    hide Odd, Switches, SwitchAt;
  }

  // Any two returns to stable are a calm time apart for every return between
  // them: a pool on the edge cannot bounce.
  lemma {:induction false} ReturnsApart(rounds: seq<Poll>, t: Tuning, k: string, i: nat, j: nat)
    requires Run(rounds, k) && i <= j && 2 * j + 1 < |Switches(rounds, t, k, |rounds|)|
    ensures var s := Switches(rounds, t, k, |rounds|);
            s[2 * i + 1] < |rounds| && s[2 * j + 1] < |rounds| &&
            rounds[s[2 * j + 1]].now - rounds[s[2 * i + 1]].now >= (j - i) * t.calm
    decreases j - i
  {
    hide Mode, Switches;
    var s := Switches(rounds, t, k, |rounds|);
    SwitchesAlternate(rounds, t, k, |rounds|);
    assert SwitchAt(rounds, t, k, s[2 * i + 1], 2 * i + 1) && SwitchAt(rounds, t, k, s[2 * j + 1], 2 * j + 1);
    if i < j {
      ReturnsApart(rounds, t, k, i, j - 1);
      var back, go, ret := s[2 * (j - 1) + 1], s[2 * j], s[2 * j + 1];
      assert SwitchAt(rounds, t, k, go, 2 * j);
      assert back < go < ret;
      AgileIsFlapping(rounds, t, k, go);
      ReturnIsCalm(rounds, t, k, ret, go);
      OneTimeMore(j - 1 - i, t.calm);
    }
  }

  lemma OneTimeMore(n: int, c: int)
    ensures (n + 1) * c == n * c + c
  {
  }

  // ---- what makes a pool switch, from the windows alone ----------------------------------

  predicate FlapsIn(w: Window, t: Tuning) { LosesPicks(w, t) || ManyFlip(w, t) }

  predicate SeenIn(windows: seq<Window>, k: string) {
    exists w :: w in windows && w.key == k
  }

  predicate FlappingIn(windows: seq<Window>, k: string, t: Tuning) {
    exists w :: w in windows && w.key == k && FlapsIn(w, t)
  }

  lemma {:induction false} SightIs(windows: seq<Window>, k: string, t: Tuning)
    requires DistinctKeys(windows)
    ensures Sight(windows, k, t) == NotSeen <==> !SeenIn(windows, k)
    ensures Sight(windows, k, t).Flaps? <==> FlappingIn(windows, k, t)
  {
    if windows != [] {
      var init, w := windows[..|windows| - 1], windows[|windows| - 1];
      SightIs(init, k, t);
      assert windows == init + [w] && w in windows;
      if w.key == k {
        FlappyIff(w, t);
        assert forall v :: v in windows && v.key == k ==> v == w;
      }
      hide Flappy, FlapsIn;
      assert forall v :: v in windows <==> v in init || v == w;
    }
  }

  // A stable pool goes agile exactly in a round whose window of it flaps.
  lemma GoesAgileIff(rounds: seq<Poll>, t: Tuning, k: string, n: nat)
    requires Run(rounds, k) && n < |rounds| && !Mode(rounds, t, k, n)
    ensures Mode(rounds, t, k, n + 1) <==> FlappingIn(rounds[n].windows, k, t)
  {
    Step(rounds, t, k, n);
    SightIs(rounds[n].windows, k, t);
    hide StateAt, Sight, FlappingIn, SeenIn;
  }

  // Without one it stays stable forever.
  lemma {:induction false} StaysStable(rounds: seq<Poll>, t: Tuning, k: string, n: nat)
    requires Run(rounds, k) && n <= |rounds|
    requires forall i :: 0 <= i < n ==> !FlappingIn(rounds[i].windows, k, t)
    ensures !Mode(rounds, t, k, n)
  {
    if n == 0 {
      assert rounds[..0] == [];
    } else {
      StaysStable(rounds, t, k, n - 1);
      GoesAgileIff(rounds, t, k, n - 1);
    }
  }

  // The time an agile pool remembers is that of a flapping round.
  lemma {:induction false} RemembersOne(rounds: seq<Poll>, t: Tuning, k: string, n: nat)
    requires Run(rounds, k) && n <= |rounds| && Mode(rounds, t, k, n)
    ensures exists i :: 0 <= i < n && FlappingIn(rounds[i].windows, k, t) &&
                        rounds[i].now == StateAt(rounds, t, k, n).value.lastFlappy
  {
    if n > 0 {
      Step(rounds, t, k, n - 1);
      SightIs(rounds[n - 1].windows, k, t);
      hide StateAt, Sight, FlappingIn, SeenIn;
      if Mode(rounds, t, k, n - 1) && !FlappingIn(rounds[n - 1].windows, k, t) { RemembersOne(rounds, t, k, n - 1); }
    }
  }

  // An agile pool returns to stable exactly in a round that sees it without
  // flapping, the calm time after every round that saw it flap.
  lemma ReturnsIff(rounds: seq<Poll>, t: Tuning, k: string, n: nat)
    requires Run(rounds, k) && n < |rounds| && Mode(rounds, t, k, n)
    ensures !Mode(rounds, t, k, n + 1) <==>
            && SeenIn(rounds[n].windows, k) && !FlappingIn(rounds[n].windows, k, t)
            && forall i :: 0 <= i < n && FlappingIn(rounds[i].windows, k, t) ==> rounds[n].now - rounds[i].now >= t.calm
  {
    AlwaysRemembers(rounds, t, k, n);
    RemembersOne(rounds, t, k, n);
    Step(rounds, t, k, n);
    SightIs(rounds[n].windows, k, t);
    forall i | 0 <= i < n ensures FlappingIn(rounds[i].windows, k, t) <==> FlapsAt(rounds, t, k, i) {
      SightIs(rounds[i].windows, k, t);
    }
    hide StateAt, Sight, FlappingIn, SeenIn;
  }
}
