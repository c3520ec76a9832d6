// Pool health history and the statistics drawn from it (daemon/nodehistory.go).
module PoolHistory {
  import opened Wrappers
  import opened Text
  import opened Sorting
  import opened Tags
  import S = NodeScores

  // Milliseconds.
  const HISTORY_WINDOW := 1800000
  const POLL_SECONDS := 10

  datatype HealthState = NotIn | Unknown | Alive | Dead | Parked | UplinkDown
  datatype Role = Idle | Active | Spare
  datatype Sample = Sample(state: HealthState, role: Role, rttMs: int)

  datatype Round = Round(at: int, uplinkDown: bool, ranked: bool, nodes: map<string, Sample>)

  datatype Standing = Holds(role: Role) | StandsParked | Gone

  datatype NodeHealth = NodeHealth(
    key: string, standing: Standing, states: seq<HealthState>, uptimePct: int, flips: nat, avgRtt: int, lastRtt: int)

  datatype PoolHealth = PoolHealth(rounds: nat, pickLoss: nat, lossSec: int, churnPct: nat, nodes: seq<NodeHealth>)

  // ---- a node's timeline ---------------------------------------------------------

  function StateIn(r: Round, k: string): HealthState {
    if k in r.nodes then r.nodes[k].state else NotIn
  }

  predicate Judged(s: HealthState) { s == Alive || s == Dead }

  // The rounds that saw the node alive or dead, as alive or not.
  function Verdicts(rounds: seq<Round>, k: string): seq<bool> {
    if rounds == [] then []
    else
      var s := StateIn(rounds[|rounds| - 1], k);
      Verdicts(rounds[..|rounds| - 1], k) + if Judged(s) then [s == Alive] else []
  }

  function CountTrue(v: seq<bool>): nat {
    if v == [] then 0 else CountTrue(v[..|v| - 1]) + if v[|v| - 1] then 1 else 0
  }

  predicate Differs(v: seq<bool>, i: nat) { 0 < i < |v| && v[i - 1] != v[i] }

  // Adjacent verdicts that differ.
  function Changes(v: seq<bool>): set<nat> {
    set i: nat | i < |v| && Differs(v, i)
  }

  function RttSum(rounds: seq<Round>, k: string): int {
    if rounds == [] then 0
    else
      var r := rounds[|rounds| - 1];
      RttSum(rounds[..|rounds| - 1], k) + if k in r.nodes && r.nodes[k].state == Alive then r.nodes[k].rttMs else 0
  }

  function LatestRtt(rounds: seq<Round>, k: string): int {
    if rounds == [] then 0
    else
      var r := rounds[|rounds| - 1];
      if k in r.nodes && r.nodes[k].state == Alive then r.nodes[k].rttMs else LatestRtt(rounds[..|rounds| - 1], k)
  }

  function Uptime(v: seq<bool>): int {
    if v == [] then -1 else CountTrue(v) * 100 / |v|
  }

  function StandingIn(r: Round, k: string): Standing {
    if k !in r.nodes then Gone
    else if r.nodes[k].state == HealthState.Parked then StandsParked
    else Holds(r.nodes[k].role)
  }

  // Go's integer division.
  function Truncated(a: int, b: int): int
    requires b > 0
  {
    if a >= 0 then a / b else -((-a) / b)
  }

  function NodeStats(rounds: seq<Round>, k: string): NodeHealth
    requires rounds != []
  {
    var v := Verdicts(rounds, k);
    NodeHealth(k, StandingIn(rounds[|rounds| - 1], k),
               seq(|rounds|, i requires 0 <= i < |rounds| => StateIn(rounds[i], k)),
               Uptime(v), |Changes(v)|, if CountTrue(v) > 0 then Truncated(RttSum(rounds, k), CountTrue(v)) else 0,
               LatestRtt(rounds, k))
  }

  lemma DiffersSnoc(v: seq<bool>, b: bool, i: nat)
    ensures Differs(v + [b], i) <==> Differs(v, i) || (i == |v| && v != [] && v[|v| - 1] != b)
  {
  }

  lemma ChangesSnoc(v: seq<bool>, b: bool)
    ensures |Changes(v + [b])| == |Changes(v)| + if v != [] && v[|v| - 1] != b then 1 else 0
    ensures CountTrue(v + [b]) == CountTrue(v) + if b then 1 else 0
  {
    assert (v + [b])[..|v|] == v;
    forall i: nat
      ensures Differs(v + [b], i) <==> Differs(v, i) || (i == |v| && v != [] && v[|v| - 1] != b)
    {
      DiffersSnoc(v, b, i);
    }
    assert forall i: nat :: Differs(v, i) ==> i < |v|;
    hide Differs;
    if v != [] && v[|v| - 1] != b {
      assert Changes(v + [b]) == Changes(v) + {|v|} && |v| !in Changes(v);
    } else {
      assert Changes(v + [b]) == Changes(v);
    }
  }

  lemma {:induction false} CountBound(v: seq<bool>)
    ensures CountTrue(v) <= |v|
  {
    if v != [] { CountBound(v[..|v| - 1]); }
  }

  // Uptime is a percentage, or -1 with no verdict at all.
  lemma UptimeRange(rounds: seq<Round>, k: string)
    ensures var u := Uptime(Verdicts(rounds, k));
            (u == -1 <==> Verdicts(rounds, k) == []) && (u != -1 ==> 0 <= u <= 100)
    ensures var v := Verdicts(rounds, k); Uptime(v) == 100 <==> v != [] && CountTrue(v) == |v|
  {
    var v := Verdicts(rounds, k);
    CountBound(v);
    if v != [] {
      assert CountTrue(v) * 100 <= |v| * 100;
      DivBound(CountTrue(v), |v|);
    }
  }

  lemma DivBound(a: nat, n: nat)
    requires a <= n && n > 0
    ensures 0 <= a * 100 / n <= 100 && (a * 100 / n == 100 <==> a == n)
  {
    if a == n {
      assert n * 100 / n == 100;
    } else {
      assert a * 100 < n * 100;
      assert a * 100 / n < 100 by { LessDiv(a * 100, n, 100); }
    }
  }

  lemma LessDiv(x: nat, n: nat, c: nat)
    requires n > 0 && x < n * c
    ensures x / n < c
  {
    TimesGrow(x / n, c, n);
    assert (x / n) * n <= x;
  }

  lemma TimesGrow(a: nat, b: nat, n: nat)
    ensures a >= b ==> a * n >= n * b
  {
    if a >= b { assert a * n == b * n + (a - b) * n; }
  }

  // What the verdicts hold is what the rounds show.
  lemma {:induction false} VerdictsShow(rounds: seq<Round>, k: string)
    ensures true in Verdicts(rounds, k) <==> exists i :: 0 <= i < |rounds| && StateIn(rounds[i], k) == Alive
    ensures false in Verdicts(rounds, k) <==> exists i :: 0 <= i < |rounds| && StateIn(rounds[i], k) == Dead
  {
    if rounds != [] {
      var init, n := rounds[..|rounds| - 1], |rounds| - 1;
      VerdictsShow(init, k);
      hide StateIn;
      assert forall i :: 0 <= i < n ==> init[i] == rounds[i];
      assert StateIn(rounds[n], k) == Alive || StateIn(rounds[n], k) == Dead || !Judged(StateIn(rounds[n], k));
    }
  }

  lemma {:induction false} AllTrue(v: seq<bool>)
    ensures CountTrue(v) == |v| <==> false !in v
    ensures CountTrue(v) <= |v|
  {
    if v != [] {
      AllTrue(v[..|v| - 1]);
      assert v == v[..|v| - 1] + [v[|v| - 1]];
    }
  }

  lemma {:induction false} NoChange(v: seq<bool>)
    ensures |Changes(v)| == 0 <==> !(true in v && false in v)
  {
    if v != [] {
      var init, b := v[..|v| - 1], v[|v| - 1];
      assert v == init + [b];
      NoChange(init);
      ChangesSnoc(init, b);
      hide Changes;
      assert init != [] ==> init[|init| - 1] in init;
      assert forall x :: x in v <==> x in init || x == b;
    } else {
      NoVerdicts();
    }
  }

  // A node never flipped exactly when it was never seen both alive and dead, was up
  // all the time exactly when seen alive and never dead, and unjudged when neither.
  lemma NeverFlipped(rounds: seq<Round>, k: string)
    requires rounds != []
    ensures var n := NodeStats(rounds, k);
            var alive := exists i :: 0 <= i < |rounds| && StateIn(rounds[i], k) == Alive;
            var dead := exists i :: 0 <= i < |rounds| && StateIn(rounds[i], k) == Dead;
            && (n.flips == 0 <==> !(alive && dead))
            && (n.uptimePct == 100 <==> alive && !dead)
            && (n.uptimePct == -1 <==> !alive && !dead)
  {
    var v := Verdicts(rounds, k);
    VerdictsShow(rounds, k);
    AllTrue(v);
    NoChange(v);
    UptimeRange(rounds, k);
    hide Verdicts, Changes, CountTrue, StateIn, Uptime, RttSum, LatestRtt, StandingIn;
    if v != [] { assert v[0] in v && (v[0] == true || v[0] == false); }
  }

  lemma NoVerdicts()
    ensures Changes([]) == {} && CountTrue([]) == 0
  {
  }

  method NodeTimeline(rounds: seq<Round>, k: string) returns (n: NodeHealth, observed: bool)
    requires rounds != []
    ensures n == NodeStats(rounds, k)
    ensures observed <==> Verdicts(rounds, k) != []
  {
    var states, alive, dead, rttSum, lastRtt, flips := [], 0, 0, 0, 0, 0;
    var last := NotIn;
    hide Changes, CountTrue, StandingIn;
    assert |Changes([])| == 0 && CountTrue([]) == 0 by { NoVerdicts(); }
    for i := 0 to |rounds|
      invariant states == seq(i, j requires 0 <= j < i => StateIn(rounds[j], k))
      invariant var v := Verdicts(rounds[..i], k);
                && alive == CountTrue(v) && alive + dead == |v| && flips == |Changes(v)|
                && last == (if v == [] then NotIn else if v[|v| - 1] then Alive else Dead)
      invariant rttSum == RttSum(rounds[..i], k) && lastRtt == LatestRtt(rounds[..i], k)
    {
      ghost var v := Verdicts(rounds[..i], k);
      assert rounds[..i + 1][..i] == rounds[..i];
      var s := StateIn(rounds[i], k);
      states := states + [s];
      assert Verdicts(rounds[..i + 1], k) == if Judged(s) then v + [s == Alive] else v;
      if Judged(s) {
        ChangesSnoc(v, s == Alive);
        if s == Alive {
          alive := alive + 1;
          rttSum := rttSum + rounds[i].nodes[k].rttMs;
          lastRtt := rounds[i].nodes[k].rttMs;
        } else {
          dead := dead + 1;
        }
        if last != NotIn && last != s { flips := flips + 1; }
        last := s;
      }
    }
    assert rounds[..|rounds|] == rounds;
    observed := alive + dead > 0;
    n := NodeHealth(k, StandingIn(rounds[|rounds| - 1], k), states,
                    if alive + dead > 0 then alive * 100 / (alive + dead) else -1,
                    flips, if alive > 0 then Truncated(rttSum, alive) else 0, lastRtt);
  }

  // ---- pick loss --------------------------------------------------------------------

  predicate InPick(s: Sample) { s.role == Active || s.role == Spare }

  // The pool's pick has members, and every one of them is dead.
  ghost predicate PickDead(r: Round) {
    && r.ranked && !r.uplinkDown
    && (exists k :: k in r.nodes && InPick(r.nodes[k]))
    && (forall k :: k in r.nodes && InPick(r.nodes[k]) ==> r.nodes[k].state == Dead)
  }

  // A run of rounds with the whole pick dead begins.
  ghost predicate LossBegins(rounds: seq<Round>, i: nat) {
    i < |rounds| && PickDead(rounds[i]) && (i == 0 || !PickDead(rounds[i - 1]))
  }

  ghost function LossStarts(rounds: seq<Round>, n: nat): set<nat> {
    set i: nat | i < n && LossBegins(rounds, i)
  }

  function Lasts(rounds: seq<Round>, i: nat): int
    requires i < |rounds|
  {
    if i + 1 < |rounds| then Truncated(rounds[i + 1].at - rounds[i].at, 1000) else POLL_SECONDS
  }

  ghost function LossTime(rounds: seq<Round>, n: nat): int
    requires n <= |rounds|
  {
    if n == 0 then 0 else LossTime(rounds, n - 1) + if PickDead(rounds[n - 1]) then Lasts(rounds, n - 1) else 0
  }

  function PickKeys(r: Round): set<string> {
    set k | k in r.nodes && InPick(r.nodes[k])
  }

  function DeadPickKeys(r: Round): set<string> {
    set k | k in r.nodes && InPick(r.nodes[k]) && r.nodes[k].state == Dead
  }

  lemma PickDeadIff(r: Round)
    ensures PickDead(r) <==> r.ranked && !r.uplinkDown && |PickKeys(r)| > 0 && |DeadPickKeys(r)| == |PickKeys(r)|
  {
    var p, d := PickKeys(r), DeadPickKeys(r);
    assert d <= p;
    if |d| == |p| { SubsetCard(d, p); }
    if |p| > 0 {
      var k :| k in p;
    }
    if PickDead(r) {
      var k :| k in r.nodes && InPick(r.nodes[k]);
      assert k in p;
      assert d == p;
    } else if r.ranked && !r.uplinkDown && (exists k :: k in r.nodes && InPick(r.nodes[k])) {
      var k :| k in r.nodes && InPick(r.nodes[k]) && r.nodes[k].state != Dead;
      assert k in p && k !in d;
    }
  }

  lemma PickWithin(r: Round)
    ensures PickKeys(r) <= r.nodes.Keys && DeadPickKeys(r) <= r.nodes.Keys
  {
  }

  lemma PickHas(r: Round, k: string)
    requires k in r.nodes
    ensures k in PickKeys(r) <==> InPick(r.nodes[k])
    ensures k in DeadPickKeys(r) <==> InPick(r.nodes[k]) && r.nodes[k].state == Dead
  {
  }

  // n elements of s have been met once only those in left remain.
  ghost predicate Met<T(!new)>(n: nat, s: set<T>, left: set<T>) { n == |s - left| }

  lemma MetNone<T(!new)>(s: set<T>, all: set<T>)
    requires s <= all
    ensures Met(0, s, all)
  {
    assert s - all == {};
  }

  lemma MetStep<T(!new)>(n: nat, s: set<T>, left: set<T>, k: T)
    requires k in left && Met(n, s, left)
    ensures Met(if k in s then n + 1 else n, s, left - {k})
  {
    if k in s {
      assert s - (left - {k}) == (s - left) + {k};
    } else {
      assert s - (left - {k}) == s - left;
    }
  }

  lemma MetAll<T(!new)>(n: nat, s: set<T>, left: set<T>)
    requires left == {} && Met(n, s, left)
    ensures n == |s|
  {
    assert s - left == s;
  }

  method RoundLost(r: Round) returns (loss: bool)
    ensures loss <==> PickDead(r)
  {
    PickDeadIff(r);
    PickWithin(r);
    hide PickDead, PickKeys, DeadPickKeys, Met;
    if !r.ranked || r.uplinkDown { return false; }
    var picked, dead := 0, 0;
    var left := r.nodes.Keys;
    MetNone(PickKeys(r), left);
    MetNone(DeadPickKeys(r), left);
    while left != {}
      invariant left <= r.nodes.Keys
      invariant Met(picked, PickKeys(r), left) && Met(dead, DeadPickKeys(r), left)
      decreases |left|
    {
      var k :| k in left;
      MetStep(picked, PickKeys(r), left, k);
      MetStep(dead, DeadPickKeys(r), left, k);
      PickHas(r, k);
      left := left - {k};
      var s := r.nodes[k];
      if s.role == Active || s.role == Spare {
        picked := picked + 1;
        if s.state == Dead { dead := dead + 1; }
      }
    }
    MetAll(picked, PickKeys(r), left);
    MetAll(dead, DeadPickKeys(r), left);
    loss := picked > 0 && dead == picked;
  }

  lemma StartsSnoc(rounds: seq<Round>, i: nat)
    requires i < |rounds|
    ensures |LossStarts(rounds, i + 1)| == |LossStarts(rounds, i)| +
              if LossBegins(rounds, i) then 1 else 0
  {
    hide LossBegins;
    var was, now := LossStarts(rounds, i), LossStarts(rounds, i + 1);
    assert i !in was;
    if LossBegins(rounds, i) { assert now == was + {i}; } else { assert now == was; }
  }

  method CountLosses(rounds: seq<Round>) returns (pickLoss: nat, lossSec: int)
    ensures pickLoss == |LossStarts(rounds, |rounds|)| && lossSec == LossTime(rounds, |rounds|)
  {
    hide PickDead, LossStarts, Truncated;
    pickLoss, lossSec := 0, 0;
    var inLoss := false;
    assert LossStarts(rounds, 0) == {} by { NoStarts(rounds); }
    for i := 0 to |rounds|
      invariant pickLoss == |LossStarts(rounds, i)| && lossSec == LossTime(rounds, i)
      invariant inLoss <==> i > 0 && PickDead(rounds[i - 1])
    {
      StartsSnoc(rounds, i);
      var loss := RoundLost(rounds[i]);
      if loss {
        if !inLoss { pickLoss := pickLoss + 1; }
        lossSec := lossSec +
          if i + 1 < |rounds| then Truncated(rounds[i + 1].at - rounds[i].at, 1000) else POLL_SECONDS;
      }
      inLoss := loss;
    }
  }

  lemma NoStarts(rounds: seq<Round>)
    ensures LossStarts(rounds, 0) == {}
  {
  }

  // ---- the whole pool ----------------------------------------------------------------

  function KeysOf(rounds: seq<Round>): set<string> {
    set r, k | r in rounds && k in r.nodes :: k
  }

  function ObservedKeys(rounds: seq<Round>): set<string> {
    set k | k in KeysOf(rounds) && Verdicts(rounds, k) != [] :: k
  }

  function FlippedKeys(rounds: seq<Round>): set<string> {
    set k | k in KeysOf(rounds) && Changes(Verdicts(rounds, k)) != {} :: k
  }

  function RoleRank(s: Standing): nat {
    match s
    case Holds(Active) => 0
    case Holds(Spare) => 1
    case Holds(Idle) => 2
    case StandsParked => 3
    case Gone => 4
  }

  function NodeOrder(): (NodeHealth, NodeHealth) -> bool {
    (a: NodeHealth, b: NodeHealth) =>
      if RoleRank(a.standing) != RoleRank(b.standing) then RoleRank(a.standing) < RoleRank(b.standing)
      else if a.uptimePct != b.uptimePct then a.uptimePct > b.uptimePct
      else Before(a.key, b.key)
  }

  function AllStats(rounds: seq<Round>): set<NodeHealth>
    requires rounds != []
  {
    set k | k in KeysOf(rounds) :: NodeStats(rounds, k)
  }

  // The statistics of a window, by their plain definitions.
  ghost predicate IsPoolHealth(p: PoolHealth, rounds: seq<Round>)
    requires rounds != []
  {
    && p.rounds == |rounds|
    && p.pickLoss == |LossStarts(rounds, |rounds|)| && p.lossSec == LossTime(rounds, |rounds|)
    && p.churnPct == (if ObservedKeys(rounds) == {} then 0 else |FlippedKeys(rounds)| * 100 / |ObservedKeys(rounds)|)
    && Elems(p.nodes) == AllStats(rounds) && Sorted(NodeOrder(), p.nodes) && Distinct(p.nodes)
  }

  lemma StatsOrdered(rounds: seq<Round>)
    requires rounds != []
    ensures TotalOrder(NodeOrder(), AllStats(rounds))
  {
    hide NodeStats, RoleRank;
    var less := NodeOrder();
    KeysTell(rounds);
    forall a, b | a in AllStats(rounds) && b in AllStats(rounds) && less(a, b)
      ensures !less(b, a)
    {
      BeforeAsymmetric(a.key, b.key);
    }
    forall a, b | a in AllStats(rounds) && b in AllStats(rounds) && a != b
      ensures less(a, b) || less(b, a)
    {
      BeforeTotal(a.key, b.key);
    }
    forall a, b, c | a in AllStats(rounds) && b in AllStats(rounds) && c in AllStats(rounds) && less(a, b) && less(b, c)
      ensures less(a, c)
    {
      if Before(a.key, b.key) && Before(b.key, c.key) { BeforeTransitive(a.key, b.key, c.key); }
    }
  }

  lemma KeysTell(rounds: seq<Round>)
    requires rounds != []
    ensures forall a, b :: a in AllStats(rounds) && b in AllStats(rounds) && a.key == b.key ==> a == b
  {
  }

  // The statistics of a window are what they are: one answer only.
  lemma PoolHealthUnique(p: PoolHealth, q: PoolHealth, rounds: seq<Round>)
    requires rounds != [] && IsPoolHealth(p, rounds) && IsPoolHealth(q, rounds)
    ensures p == q
  {
    hide LossStarts, LossTime, ObservedKeys, FlippedKeys, AllStats, NodeOrder;
    StatsOrdered(rounds);
    SortedUnique(NodeOrder(), p.nodes, q.nodes);
  }

  // Every node's timeline, in no particular order, and how many were observed and flipped.
  method Timelines(rounds: seq<Round>) returns (nodes: seq<NodeHealth>, observed: nat, flipped: nat)
    requires rounds != []
    ensures Listed(nodes, rounds, KeysOf(rounds))
    ensures observed == |ObservedKeys(rounds)| && flipped == |FlippedKeys(rounds)|
  {
    hide Tallied, NodeStats, Verdicts, KeysOf, Listed;
    var left := KeysOf(rounds);
    nodes, observed, flipped := [], 0, 0;
    TallyStart(rounds);
    while left != {}
      invariant Tallied(rounds, nodes, observed, flipped, left)
      decreases |left|
    {
      var k :| k in left;
      var n, seen := NodeTimeline(rounds, k);
      TallyStep(rounds, nodes, observed, flipped, left, k, seen);
      left := left - {k};
      if seen {
        observed := observed + 1;
        if n.flips > 0 { flipped := flipped + 1; }
      }
      nodes := nodes + [n];
    }
    TallyEnd(rounds, nodes, observed, flipped, left);
  }

  // The nodes listed and counted once only those in left remain.
  ghost predicate Tallied(rounds: seq<Round>, nodes: seq<NodeHealth>, observed: nat, flipped: nat, left: set<string>)
    requires rounds != []
  {
    && left <= KeysOf(rounds) && Listed(nodes, rounds, KeysOf(rounds) - left)
    && Met(observed, ObservedKeys(rounds), left) && Met(flipped, FlippedKeys(rounds), left)
  }

  lemma TallyStart(rounds: seq<Round>)
    requires rounds != []
    ensures Tallied(rounds, [], 0, 0, KeysOf(rounds))
  {
    hide KeysOf, ObservedKeys, FlippedKeys, Listed;
    KeyFacts(rounds);
    NothingListed(rounds);
    assert KeysOf(rounds) - KeysOf(rounds) == {};
    MetNone(ObservedKeys(rounds), KeysOf(rounds));
    MetNone(FlippedKeys(rounds), KeysOf(rounds));
  }

  lemma TallyStep(rounds: seq<Round>, nodes: seq<NodeHealth>, observed: nat, flipped: nat, left: set<string>,
                  k: string, seen: bool)
    requires rounds != [] && Tallied(rounds, nodes, observed, flipped, left) && k in left
    requires seen <==> Verdicts(rounds, k) != []
    ensures var n := NodeStats(rounds, k);
            Tallied(rounds, nodes + [n], if seen then observed + 1 else observed,
                    if seen && n.flips > 0 then flipped + 1 else flipped, left - {k})
  {
    hide NodeStats, Verdicts, Changes, KeysOf, ObservedKeys, FlippedKeys, Listed, Met;
    KeyFacts(rounds);
    StatsFlips(rounds, k);
    MetStep(observed, ObservedKeys(rounds), left, k);
    MetStep(flipped, FlippedKeys(rounds), left, k);
    var keys := KeysOf(rounds);
    assert keys - (left - {k}) == (keys - left) + {k};
    ListedSnoc(nodes, rounds, keys - left, k);
  }

  lemma TallyEnd(rounds: seq<Round>, nodes: seq<NodeHealth>, observed: nat, flipped: nat, left: set<string>)
    requires rounds != [] && Tallied(rounds, nodes, observed, flipped, left) && left == {}
    ensures Listed(nodes, rounds, KeysOf(rounds)) && observed == |ObservedKeys(rounds)| &&
            flipped == |FlippedKeys(rounds)|
  {
    hide KeysOf, ObservedKeys, FlippedKeys, Listed, Met;
    MetAll(observed, ObservedKeys(rounds), left);
    MetAll(flipped, FlippedKeys(rounds), left);
    assert KeysOf(rounds) - left == KeysOf(rounds);
  }

  method PoolStats(rounds: seq<Round>) returns (p: PoolHealth)
    requires rounds != []
    ensures IsPoolHealth(p, rounds)
  {
    hide LossStarts, LossTime, NodeOrder, KeysOf, ObservedKeys, FlippedKeys, Listed, AllStats, Distinct, Sorted, Elems;
    var pickLoss, lossSec := CountLosses(rounds);
    var nodes, observed, flipped := Timelines(rounds);
    var churn := 0;
    if observed > 0 { churn := flipped * 100 / observed; }
    ListedAll(nodes, rounds);
    StatsOrdered(rounds);
    SortSorts(NodeOrder(), nodes, AllStats(rounds));
    p := PoolHealth(|rounds|, pickLoss, lossSec, churn, SortBy(NodeOrder(), nodes));
  }

  ghost predicate Listed(nodes: seq<NodeHealth>, rounds: seq<Round>, keys: set<string>)
    requires rounds != []
  {
    Distinct(nodes) && forall n :: n in nodes <==> exists k :: k in keys && n == NodeStats(rounds, k)
  }

  lemma NothingListed(rounds: seq<Round>)
    requires rounds != []
    ensures Listed([], rounds, {})
  {
  }

  lemma ListedSnoc(nodes: seq<NodeHealth>, rounds: seq<Round>, keys: set<string>, k: string)
    requires rounds != [] && Listed(nodes, rounds, keys) && k !in keys
    ensures Listed(nodes + [NodeStats(rounds, k)], rounds, keys + {k})
  {
    StatsKey(rounds);
    hide NodeStats;
    var n := NodeStats(rounds, k);
    forall m | m in nodes ensures m.key != k {
      var j :| j in keys && m == NodeStats(rounds, j);
    }
    var after := nodes + [n];
    forall m ensures m in after <==> exists j :: j in keys + {k} && m == NodeStats(rounds, j) {
      if m in nodes {
        var j :| j in keys && m == NodeStats(rounds, j);
        assert j in keys + {k};
      }
      if m == n { assert k in keys + {k}; }
    }
  }

  lemma ListedAll(nodes: seq<NodeHealth>, rounds: seq<Round>)
    requires rounds != [] && Listed(nodes, rounds, KeysOf(rounds))
    ensures Elems(nodes) == AllStats(rounds) && Distinct(nodes)
  {
    hide NodeStats;
  }

  lemma KeyFacts(rounds: seq<Round>)
    ensures ObservedKeys(rounds) <= KeysOf(rounds) && FlippedKeys(rounds) <= KeysOf(rounds)
    ensures forall k :: k in KeysOf(rounds) ==> (k in ObservedKeys(rounds) <==> Verdicts(rounds, k) != [])
    ensures forall k :: k in KeysOf(rounds) ==> (k in FlippedKeys(rounds) <==> Changes(Verdicts(rounds, k)) != {})
  {
  }

  lemma StatsKey(rounds: seq<Round>)
    requires rounds != []
    ensures forall k :: NodeStats(rounds, k).key == k
  {
  }

  // A node flips only if it was ever judged.
  lemma StatsFlips(rounds: seq<Round>, k: string)
    requires rounds != []
    ensures NodeStats(rounds, k).flips > 0 <==> Changes(Verdicts(rounds, k)) != {}
    ensures NodeStats(rounds, k).flips > 0 ==> Verdicts(rounds, k) != []
  {
  }

  // ---- what the statistics leave out --------------------------------------------------------

  // The same history but for samples of one node that are neither alive nor
  // dead: dropped, added or swapped for one another, in any rounds.
  ghost predicate SameJudgements(a: seq<Round>, b: seq<Round>, k: string) {
    |a| == |b| && forall i :: 0 <= i < |a| ==>
      StateIn(a[i], k) == StateIn(b[i], k) || (!Judged(StateIn(a[i], k)) && !Judged(StateIn(b[i], k)))
  }

  lemma {:induction false} SameVerdicts(a: seq<Round>, b: seq<Round>, k: string)
    requires SameJudgements(a, b, k)
    ensures Verdicts(a, k) == Verdicts(b, k)
  {
    if a != [] { SameVerdicts(a[..|a| - 1], b[..|b| - 1], k); }
  }

  // Unknown, parked, uplink-down and missing samples of a node change neither
  // its flips nor its uptime.
  lemma UnjudgedIgnored(a: seq<Round>, b: seq<Round>, k: string)
    requires a != [] && SameJudgements(a, b, k)
    ensures NodeStats(a, k).flips == NodeStats(b, k).flips && NodeStats(a, k).uptimePct == NodeStats(b, k).uptimePct
  {
    SameVerdicts(a, b, k);
  }

  // Nor do whole rounds that do not judge it.
  lemma {:induction false} RoundIgnored(a: seq<Round>, r: Round, b: seq<Round>, k: string)
    requires !Judged(StateIn(r, k))
    ensures Verdicts(a + [r] + b, k) == Verdicts(a + b, k)
  {
    if b == [] {
      assert a + [r] + b == a + [r] && a + b == a && (a + [r])[..|a|] == a;
    } else {
      RoundIgnored(a, r, b[..|b| - 1], k);
      assert (a + [r] + b)[..|a| + |b|] == a + [r] + b[..|b| - 1];
      assert (a + b)[..|a| + |b| - 1] == a + b[..|b| - 1];
    }
  }

  // ---- recording -------------------------------------------------------------------------------

  datatype HistorySlot = HistorySlot(key: string, index: nat, members: seq<string>, picked: set<string>,
                                     active: set<string>, ranked: bool)

  type History = map<string, seq<Round>>

  function RoleOf(slot: HistorySlot, k: string): Role {
    if k in slot.active then Active else if k in slot.picked then Spare else Idle
  }

  function SampleOf(slot: HistorySlot, byTag: map<string, S.NodeStatus>, uplinkDown: bool, k: string): Sample {
    var t := SlotMemberTag(slot.index, k);
    if !S.Sampled(byTag, t) then Sample(Unknown, RoleOf(slot, k), 0)
    else if byTag[t].alive then Sample(Alive, RoleOf(slot, k), byTag[t].delay)
    else Sample(if uplinkDown then UplinkDown else Dead, RoleOf(slot, k), 0)
  }

  // Every loaded member's sample, and the known members that are parked.
  function RoundOf(slot: HistorySlot, byTag: map<string, S.NodeStatus>, parked: set<string>, known: set<string>,
                   uplinkDown: bool, now: int): Round
  {
    Round(now, uplinkDown, slot.ranked,
          map k | k in Elems(slot.members) + known * parked ::
            if k in slot.members then SampleOf(slot, byTag, uplinkDown, k) else Sample(HealthState.Parked, Idle, 0))
  }

  function Trim(rounds: seq<Round>, cutoff: int): seq<Round> {
    if rounds != [] && rounds[0].at < cutoff then Trim(rounds[1..], cutoff) else rounds
  }

  function PoolsIn(slots: seq<HistorySlot>): (pools: seq<S.Pool>)
    ensures |pools| == |slots| && forall i :: 0 <= i < |slots| ==> pools[i] == S.Pool(slots[i].index, slots[i].members)
  {
    seq(|slots|, i requires 0 <= i < |slots| => S.Pool(slots[i].index, slots[i].members))
  }

  function LoadedTags(slots: seq<HistorySlot>): set<string> {
    S.Loaded(PoolsIn(slots))
  }

  // Something was pinged, and nothing anywhere answered.
  predicate Outage(slots: seq<HistorySlot>, byTag: map<string, S.NodeStatus>) {
    S.AnySampled(LoadedTags(slots), byTag) && !S.AnyAlive(LoadedTags(slots), byTag)
  }

  function RoundsOf(h: History, k: string): seq<Round> {
    if k in h then h[k] else []
  }

  function Recorded(h: History, slots: seq<HistorySlot>, byTag: map<string, S.NodeStatus>, parked: set<string>,
                    uplinkDown: bool, now: int): History
  {
    if slots == [] then h
    else
      var h, s := Recorded(h, slots[..|slots| - 1], byTag, parked, uplinkDown, now), slots[|slots| - 1];
      var rounds := RoundsOf(h, s.key);
      h[s.key := Trim(rounds + [RoundOf(s, byTag, parked, KeysOf(rounds), uplinkDown, now)], now - HISTORY_WINDOW)]
  }

  function PoolKeys(slots: seq<HistorySlot>): set<string> {
    set s | s in slots :: s.key
  }

  class NodeHistory {
    var pools: History

    constructor ()
      ensures pools == map[]
    {
      pools := map[];
    }

    method UplinkIsDown(slots: seq<HistorySlot>, byTag: map<string, S.NodeStatus>) returns (down: bool)
      ensures down <==> Outage(slots, byTag)
    {
      hide LoadedTags, SlotMemberTag, S.AnySampled, S.AnyAlive, S.MemberTags;
      var anyAlive, anySampled := false, false;
      NoTags(byTag);
      for i := 0 to |slots|
        invariant anySampled <==> S.AnySampled(LoadedTags(slots[..i]), byTag)
        invariant anyAlive <==> S.AnyAlive(LoadedTags(slots[..i]), byTag)
      {
        var sl := slots[i];
        ghost var before := LoadedTags(slots[..i]);
        assert slots[..i + 1] == slots[..i] + [sl];
        LoadedTagsSnoc(slots[..i], sl);
        NoMembers(before, sl);
        for j := 0 to |sl.members|
          invariant anySampled <==> S.AnySampled(before + S.MemberTags(sl.index, sl.members[..j]), byTag)
          invariant anyAlive <==> S.AnyAlive(before + S.MemberTags(sl.index, sl.members[..j]), byTag)
        {
          var tag := SlotMemberTag(sl.index, sl.members[j]);
          NextMember(before, sl, j);
          S.AnyWith(before + S.MemberTags(sl.index, sl.members[..j]), tag, byTag);
          if S.Sampled(byTag, tag) {
            anySampled := true;
            anyAlive := anyAlive || byTag[tag].alive;
          }
        }
        assert sl.members[..|sl.members|] == sl.members;
      }
      assert slots[..|slots|] == slots;
      down := anySampled && !anyAlive;
    }

    // Folds one poll into the history; pools no longer loaded are dropped.
    method Record(slots: seq<HistorySlot>, byTag: map<string, S.NodeStatus>, parked: set<string>, now: int)
      modifies this
      ensures var all := Recorded(old(pools), slots, byTag, parked, Outage(slots, byTag), now);
              pools == map k | k in all && k in PoolKeys(slots) :: all[k]
    {
      hide RoundOf, Trim, KeysOf, Outage;
      var down := UplinkIsDown(slots, byTag);
      for i := 0 to |slots|
        invariant pools == Recorded(old(pools), slots[..i], byTag, parked, down, now)
      {
        assert slots[..i + 1][..i] == slots[..i];
        var sl := slots[i];
        var rounds := RoundsOf(pools, sl.key);
        rounds := rounds + [RoundOf(sl, byTag, parked, KeysOf(rounds), down, now)];
        rounds := TrimmedTo(rounds, now - HISTORY_WINDOW);
        pools := pools[sl.key := rounds];
      }
      assert slots[..|slots|] == slots;
      pools := map k | k in pools && k in PoolKeys(slots) :: pools[k];
    }

    method TrimmedTo(rounds: seq<Round>, cutoff: int) returns (left: seq<Round>)
      ensures left == Trim(rounds, cutoff)
    {
      var i := 0;
      while i < |rounds| && rounds[i].at < cutoff
        invariant i <= |rounds| && Trim(rounds, cutoff) == Trim(rounds[i..], cutoff)
      {
        assert rounds[i..][1..] == rounds[i + 1..];
        i := i + 1;
      }
      left := rounds[i..];
    }
  }

  lemma NoTags(byTag: map<string, S.NodeStatus>)
    ensures !S.AnySampled(LoadedTags([]), byTag) && !S.AnyAlive(LoadedTags([]), byTag)
  {
  }

  lemma NoMembers(tags: set<string>, s: HistorySlot)
    ensures tags + S.MemberTags(s.index, s.members[..0]) == tags
  {
  }

  lemma NextMember(tags: set<string>, s: HistorySlot, j: nat)
    requires j < |s.members|
    ensures tags + S.MemberTags(s.index, s.members[..j + 1]) ==
            tags + S.MemberTags(s.index, s.members[..j]) + {SlotMemberTag(s.index, s.members[j])}
  {
    hide SlotMemberTag;
    assert s.members[..j + 1] == s.members[..j] + [s.members[j]];
  }

  lemma LoadedTagsSnoc(slots: seq<HistorySlot>, s: HistorySlot)
    ensures LoadedTags(slots + [s]) == LoadedTags(slots) + S.MemberTags(s.index, s.members)
  {
    assert PoolsIn(slots + [s]) == PoolsIn(slots) + [S.Pool(s.index, s.members)];
    S.LoadedSnoc(PoolsIn(slots), S.Pool(s.index, s.members));
  }

  // An outage of this box's own link judges no node and loses no pick: whatever
  // round it is recorded as, the statistics of every node stand.
  lemma OutageIgnored(slots: seq<HistorySlot>, slot: HistorySlot, byTag: map<string, S.NodeStatus>,
                      parked: set<string>, known: set<string>,
                      now: int, before: seq<Round>, after: seq<Round>, k: string)
    requires Outage(slots, byTag) && slot in slots
    ensures var r := RoundOf(slot, byTag, parked, known, true, now);
            !PickDead(r) && !Judged(StateIn(r, k)) && Verdicts(before + [r] + after, k) == Verdicts(before + after, k)
  {
    var r := RoundOf(slot, byTag, parked, known, true, now);
    if k in slot.members {
      var j :| 0 <= j < |slots| && slots[j] == slot;
      assert PoolsIn(slots)[j] in PoolsIn(slots);
      assert SlotMemberTag(slot.index, k) in LoadedTags(slots);
    }
    RoundIgnored(before, r, after, k);
  }

  // Rounds within the window, oldest first.
  ghost predicate InWindow(rounds: seq<Round>, now: int) {
    (forall i, j :: 0 <= i < j < |rounds| ==> rounds[i].at <= rounds[j].at) &&
    forall i :: 0 <= i < |rounds| ==> now - HISTORY_WINDOW <= rounds[i].at <= now
  }

  ghost predicate Ordered(rounds: seq<Round>, now: int) {
    (forall i, j :: 0 <= i < j < |rounds| ==> rounds[i].at <= rounds[j].at) &&
    forall i :: 0 <= i < |rounds| ==> rounds[i].at <= now
  }

  lemma {:induction false} TrimIs(rounds: seq<Round>, cutoff: int) returns (i: nat)
    ensures i <= |rounds| && Trim(rounds, cutoff) == rounds[i..]
    ensures (forall j :: 0 <= j < i ==> rounds[j].at < cutoff) && (i < |rounds| ==> rounds[i].at >= cutoff)
  {
    if rounds != [] && rounds[0].at < cutoff {
      var n := TrimIs(rounds[1..], cutoff);
      i := n + 1;
      assert rounds[1..][n..] == rounds[i..];
      forall j | 0 <= j < i ensures rounds[j].at < cutoff { if j > 0 { assert rounds[1..][j - 1] == rounds[j]; } }
    } else {
      i := 0;
    }
  }

  // Under a clock that does not go back, a pool's history is exactly its rounds
  // of the window, the newest the one just recorded.
  lemma TrimKeeps(rounds: seq<Round>, now: int)
    requires Ordered(rounds, now) && rounds != [] && rounds[|rounds| - 1].at == now
    ensures var t := Trim(rounds, now - HISTORY_WINDOW);
            && InWindow(t, now) && t != [] && t[|t| - 1] == rounds[|rounds| - 1]
            && forall i :: 0 <= i < |rounds| ==> (rounds[i] in t <==> rounds[i].at >= now - HISTORY_WINDOW)
  {
    var n := TrimIs(rounds, now - HISTORY_WINDOW);
    var t := rounds[n..];
    assert n < |rounds|;
    forall i | 0 <= i < |t| ensures t[i].at >= now - HISTORY_WINDOW { assert t[i] == rounds[n + i]; }
    forall i | n <= i < |rounds| ensures rounds[i] in t { assert t[i - n] == rounds[i]; }
  }
}
