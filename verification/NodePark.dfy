// Parking dead pool nodes, with a doubling back-off (daemon/nodepark.go).
module NodePark {
  import opened Wrappers
  import opened Sorting
  import opened Tags
  import S = NodeScores

  // Seconds.
  const DEAD_BEFORE_PARK := 900
  const TRIAL_WINDOW := 180
  const PARK_INITIAL := 1800
  const PARK_MAX := 21600

  // None is the zero time.
  datatype ParkState = ParkState(deadSince: Option<int>, parkedUntil: Option<int>, parkFor: int, onTrial: bool)

  const UNSEEN := ParkState(None, None, 0, false)

  // never: agile and manual pools do not park.
  datatype ParkSlot = ParkSlot(index: nat, members: seq<string>, never: bool)

  datatype Park = Park(key: string, length: int)

  type Nodes = map<string, ParkState>

  predicate Dead(st: S.NodeStatus) {
    !st.alive && st.all > 0 && st.fail == st.all
  }

  function StatusOf(slot: ParkSlot, byTag: map<string, S.NodeStatus>, key: string): Option<S.NodeStatus> {
    S.Get(byTag, SlotMemberTag(slot.index, key))
  }

  predicate ShowsAlive(slot: ParkSlot, byTag: map<string, S.NodeStatus>, key: string) {
    var st := StatusOf(slot, byTag, key);
    st.Some? && st.value.alive
  }

  predicate ShowsDead(slot: ParkSlot, byTag: map<string, S.NodeStatus>, key: string) {
    var st := StatusOf(slot, byTag, key);
    st.Some? && Dead(st.value)
  }

  function AliveCount(slot: ParkSlot, byTag: map<string, S.NodeStatus>, n: nat): nat
    requires n <= |slot.members|
  {
    if n == 0 then 0 else AliveCount(slot, byTag, n - 1) + if ShowsAlive(slot, byTag, slot.members[n - 1]) then 1 else 0
  }

  // ---- one member --------------------------------------------------------------

  function Waits(ps: ParkState): int {
    if ps.onTrial then TRIAL_WINDOW else DEAD_BEFORE_PARK
  }

  function NextLength(ps: ParkState): int {
    if ps.parkFor == 0 then PARK_INITIAL
    else if ps.onTrial then (if ps.parkFor * 2 > PARK_MAX then PARK_MAX else ps.parkFor * 2)
    else ps.parkFor
  }

  function Counting(ps: Option<ParkState>, now: int): ParkState {
    var ps := if ps.Some? then ps.value else UNSEEN;
    if ps.deadSince.Some? then ps else ps.(deadSince := Some(now))
  }

  predicate ParksNow(ps: ParkState, now: int, aliveCount: nat, remaining: int)
    requires ps.deadSince.Some?
  {
    now - ps.deadSince.value >= Waits(ps) && aliveCount > 0 && remaining > 1
  }

  function Parked(ps: ParkState, now: int): ParkState {
    ParkState(None, Some(now + NextLength(ps)), NextLength(ps), false)
  }

  // A member's record after one observation of it, and whether it was parked.
  function See(ps: Option<ParkState>, st: Option<S.NodeStatus>, now: int, aliveCount: nat,
               remaining: int): (Option<ParkState>, bool)
  {
    if st.None? then (ps, false)
    else if st.value.alive then (None, false)
    else if !Dead(st.value) then (ps, false)
    else
      var c := Counting(ps, now);
      if ParksNow(c, now, aliveCount, remaining) then (Some(Parked(c, now)), true) else (Some(c), false)
  }

  // ---- a slot, and a round -------------------------------------------------------

  datatype Progress = Progress(nodes: Nodes, remaining: int, parks: seq<Park>)

  function Set(nodes: Nodes, key: string, ps: Option<ParkState>): Nodes {
    if ps.Some? then nodes[key := ps.value] else nodes - {key}
  }

  function SlotAfter(nodes: Nodes, slot: ParkSlot, byTag: map<string, S.NodeStatus>, now: int, n: nat): Progress
    requires n <= |slot.members|
  {
    if n == 0 then Progress(nodes, |slot.members|, [])
    else
      var p, key := SlotAfter(nodes, slot, byTag, now, n - 1), slot.members[n - 1];
      var (ps, parked) := See(S.Get(p.nodes, key), StatusOf(slot, byTag, key), now,
                              AliveCount(slot, byTag, |slot.members|), p.remaining);
      Progress(Set(p.nodes, key, ps), if parked then p.remaining - 1 else p.remaining,
               if parked && ps.Some? then p.parks + [Park(key, ps.value.parkFor)] else p.parks)
  }

  function SlotsAfter(nodes: Nodes, slots: seq<ParkSlot>, byTag: map<string, S.NodeStatus>, now: int)
    : (Nodes, seq<Park>)
  {
    if slots == [] then (nodes, [])
    else
      var (ns, parks) := SlotsAfter(nodes, slots[..|slots| - 1], byTag, now);
      var slot := slots[|slots| - 1];
      if slot.never then (ns, parks)
      else
        var p := SlotAfter(ns, slot, byTag, now, |slot.members|);
        (p.nodes, parks + p.parks)
  }

  function LoadedKeys(slots: seq<ParkSlot>): set<string> {
    set s, k | s in slots && k in s.members :: k
  }

  // Records of nodes that left every pool go, unless they are parked.
  function Kept(nodes: Nodes, slots: seq<ParkSlot>): Nodes {
    map k | k in nodes && (k in LoadedKeys(slots) || nodes[k].parkedUntil.Some?) :: nodes[k]
  }

  predicate Expired(ps: ParkState, now: int) {
    ps.parkedUntil.Some? && now >= ps.parkedUntil.value
  }

  function Released(nodes: Nodes, now: int): Nodes {
    map k | k in nodes ::
      if Expired(nodes[k], now) then nodes[k].(parkedUntil := None, onTrial := true, deadSince := None) else nodes[k]
  }

  // The nodes whose park is over.
  function Back(nodes: Nodes, now: int): set<string> {
    set k | k in nodes && Expired(nodes[k], now)
  }

  function ParkedKeys(nodes: Nodes, now: int): set<string> {
    set k | k in nodes && nodes[k].parkedUntil.Some? && now < nodes[k].parkedUntil.value
  }

  class Parker {
    var nodes: Nodes

    constructor ()
      ensures nodes == map[]
    {
      nodes := map[];
    }

    method ObserveSlot(slot: ParkSlot, byTag: map<string, S.NodeStatus>, now: int) returns (parks: seq<Park>)
      modifies this
      ensures var p := SlotAfter(old(nodes), slot, byTag, now, |slot.members|); nodes == p.nodes && parks == p.parks
    {
      hide StatusOf, Dead;
      var aliveCount := 0;
      for i := 0 to |slot.members|
        invariant aliveCount == AliveCount(slot, byTag, i) && nodes == old(nodes)
      {
        var st := StatusOf(slot, byTag, slot.members[i]);
        if st.Some? && st.value.alive { aliveCount := aliveCount + 1; }
      }
      parks := [];
      var remaining := |slot.members|;
      hide ParksNow, Parked, Counting, AliveCount;
      for i := 0 to |slot.members|
        invariant Progress(nodes, remaining, parks) == SlotAfter(old(nodes), slot, byTag, now, i)
      {
        var key := slot.members[i];
        var st := StatusOf(slot, byTag, key);
        if st.None? {
        } else if st.value.alive {
          nodes := nodes - {key};
        } else if Dead(st.value) {
          var ps, parked := SeeDead(S.Get(nodes, key), now, aliveCount, remaining);
          if parked {
            remaining := remaining - 1;
            parks := parks + [Park(key, ps.parkFor)];
          }
          nodes := nodes[key := ps];
        }
      }
    }

    // A member seen dead: its record counts on, and it is parked when its time has come.
    method SeeDead(was: Option<ParkState>, now: int, aliveCount: nat, remaining: int)
      returns (ps: ParkState, parked: bool)
      ensures var c := Counting(was, now);
              parked == ParksNow(c, now, aliveCount, remaining) && ps == if parked then Parked(c, now) else c
    {
      ps := if was.Some? then was.value else ParkState(None, None, 0, false);
      parked := false;
      if ps.deadSince.None? { ps := ps.(deadSince := Some(now)); }
      var wait := if ps.onTrial then TRIAL_WINDOW else DEAD_BEFORE_PARK;
      if now - ps.deadSince.value < wait || aliveCount == 0 || remaining <= 1 { return; }
      var length := ps.parkFor;
      if ps.parkFor == 0 {
        length := PARK_INITIAL;
      } else if ps.onTrial {
        length := length * 2;
        if length > PARK_MAX { length := PARK_MAX; }
      }
      ps := ParkState(None, Some(now + length), length, false);
      parked := true;
    }

    // A round: records nobody needs any more go, then every slot that parks is looked at.
    method Observe(slots: seq<ParkSlot>, byTag: map<string, S.NodeStatus>, now: int) returns (parks: seq<Park>)
      modifies this
      ensures (nodes, parks) == SlotsAfter(Kept(old(nodes), slots), slots, byTag, now)
    {
      hide SlotAfter;
      var loaded: set<string> := {};
      for i := 0 to |slots|
        invariant loaded == LoadedKeys(slots[..i]) && nodes == old(nodes)
      {
        loaded := loaded + (set k | k in slots[i].members);
        assert slots[..i + 1] == slots[..i] + [slots[i]];
        LoadedKeysSnoc(slots[..i], slots[i]);
      }
      assert slots[..|slots|] == slots;
      nodes := map k | k in nodes && (k in loaded || nodes[k].parkedUntil.Some?) :: nodes[k];
      ghost var kept := nodes;
      parks := [];
      for i := 0 to |slots|
        invariant (nodes, parks) == SlotsAfter(kept, slots[..i], byTag, now)
      {
        assert slots[..i + 1][..i] == slots[..i];
        if slots[i].never { continue; }
        var more := ObserveSlot(slots[i], byTag, now);
        parks := parks + more;
      }
      assert slots[..|slots|] == slots;
    }

    // Ends the parks that are over; their nodes are on trial from here on.
    method Release(now: int) returns (back: set<string>)
      modifies this
      ensures nodes == Released(old(nodes), now)
      ensures back == Back(old(nodes), now)
      ensures ParkedKeys(nodes, now) == ParkedKeys(old(nodes), now)
      ensures forall k :: k in nodes ==> !Expired(nodes[k], now)
    {
      back := Back(nodes, now);
      nodes := map k | k in nodes ::
        if k in back then nodes[k].(parkedUntil := None, onTrial := true, deadSince := None) else nodes[k];
    }

    // Drops the given nodes' records, and tells which of them had been parked.
    method Unpark(keys: seq<string>, now: int) returns (back: seq<string>)
      modifies this
      ensures nodes == old(nodes) - Elems(keys)
      ensures Elems(back) == Elems(keys) * ParkedKeys(old(nodes), now)
    {
      back := [];
      for i := 0 to |keys|
        invariant nodes == old(nodes) - Elems(keys[..i])
        invariant Elems(back) == Elems(keys[..i]) * ParkedKeys(old(nodes), now)
      {
        var k := keys[i];
        assert Elems(keys[..i + 1]) == Elems(keys[..i]) + {k} by { assert keys[..i + 1] == keys[..i] + [k]; }
        if k in nodes {
          if nodes[k].parkedUntil.Some? && now < nodes[k].parkedUntil.value {
            assert Elems(back + [k]) == Elems(back) + {k};
            back := back + [k];
          }
          nodes := nodes - {k};
        }
      }
      assert keys[..|keys|] == keys;
    }
  }

  lemma LoadedKeysSnoc(slots: seq<ParkSlot>, s: ParkSlot)
    ensures LoadedKeys(slots + [s]) == LoadedKeys(slots) + Elems(s.members)
  {
    var l, r := LoadedKeys(slots + [s]), LoadedKeys(slots) + Elems(s.members);
    forall k | k in r ensures k in l {
      if k in LoadedKeys(slots) {
        var t :| t in slots && k in t.members;
        assert t in slots + [s];
      } else {
        assert s in slots + [s];
      }
    }
  }

  // ---- dropping parked members -----------------------------------------------------------

  function NotIn(parked: set<string>): string -> bool {
    k => k !in parked
  }

  function WithoutParked(members: seq<string>, parked: set<string>): seq<string> {
    var left := Keep(NotIn(parked), members);
    if left == [] then members else left
  }

  method DropParked(members: seq<string>, parked: set<string>) returns (left: seq<string>)
    ensures left == WithoutParked(members, parked)
  {
    left := [];
    for i := 0 to |members|
      invariant left + Keep(NotIn(parked), members[i..]) == Keep(NotIn(parked), members)
    {
      assert members[i..][1..] == members[i + 1..];
      if members[i] !in parked { left := left + [members[i]]; }
    }
    assert members[|members|..] == [];
    if left == [] { left := members; }
  }

  // Parking never turns a pool empty, and drops nobody but parked members.
  lemma NeverEmpties(members: seq<string>, parked: set<string>)
    ensures members != [] ==> WithoutParked(members, parked) != []
    ensures forall k :: k in WithoutParked(members, parked) ==> k in members
    ensures forall k :: k in members && k !in parked ==> k in WithoutParked(members, parked)
    ensures (exists k :: k in members && k !in parked) ==>
              forall k :: k in WithoutParked(members, parked) ==> k !in parked
  {
    KeepElems(NotIn(parked), members);
  }

  // ---- what parking takes ------------------------------------------------------------------

  lemma {:induction false} SomeAlive(slot: ParkSlot, byTag: map<string, S.NodeStatus>, n: nat)
    requires n <= |slot.members| && AliveCount(slot, byTag, n) > 0
    ensures exists i :: 0 <= i < n && ShowsAlive(slot, byTag, slot.members[i])
  {
    hide ShowsAlive;
    if !ShowsAlive(slot, byTag, slot.members[n - 1]) { SomeAlive(slot, byTag, n - 1); }
  }

  lemma SeeParks(ps: Option<ParkState>, st: Option<S.NodeStatus>, now: int, aliveCount: nat, remaining: int)
    ensures var (after, parked) := See(ps, st, now, aliveCount, remaining);
            parked ==> after.Some? && st.Some? && Dead(st.value) && !st.value.alive && aliveCount > 0 && remaining > 1
  {
  }

  ghost predicate ParkOf(slot: ParkSlot, byTag: map<string, S.NodeStatus>, p: Park) {
    && p.key in slot.members && ShowsDead(slot, byTag, p.key)
    && exists k :: k in slot.members && ShowsAlive(slot, byTag, k)
  }

  // A node is parked only while another member of its slot answers pings, which
  // is not parked itself, and with a member left besides it.
  lemma {:induction false} ParkedWithSibling(nodes: Nodes, slot: ParkSlot, byTag: map<string, S.NodeStatus>, now: int,
                                             n: nat)
    requires n <= |slot.members|
    ensures var p := SlotAfter(nodes, slot, byTag, now, n);
            && (forall i :: 0 <= i < |p.parks| ==>
                  ParkOf(slot, byTag, p.parks[i]) && !ShowsAlive(slot, byTag, p.parks[i].key))
            && p.remaining == |slot.members| - |p.parks|
            && (p.parks != [] ==> p.remaining >= 1)
  {
    if n > 0 {
      ParkedWithSibling(nodes, slot, byTag, now, n - 1);
      var p, key := SlotAfter(nodes, slot, byTag, now, n - 1), slot.members[n - 1];
      var alive := AliveCount(slot, byTag, |slot.members|);
      var (ps, parked) := See(S.Get(p.nodes, key), StatusOf(slot, byTag, key), now, alive, p.remaining);
      SeeParks(S.Get(p.nodes, key), StatusOf(slot, byTag, key), now, alive, p.remaining);
      if alive > 0 { SomeAlive(slot, byTag, |slot.members|); }
      assert key in slot.members;
      assert parked ==> ShowsDead(slot, byTag, key) && !ShowsAlive(slot, byTag, key);
      assert parked ==> ParkOf(slot, byTag, Park(key, ps.value.parkFor));
      hide StatusOf, AliveCount, See, ShowsAlive, ShowsDead, ParkOf;
    }
  }

  // ---- how long a park lasts ------------------------------------------------------------------

  // Half an hour, doubled for every trial failed in a row, six hours at most.
  function ParkLength(trials: nat): int {
    if trials == 0 then PARK_INITIAL
    else if ParkLength(trials - 1) * 2 > PARK_MAX then PARK_MAX
    else ParkLength(trials - 1) * 2
  }

  function Pow2(n: nat): nat {
    if n == 0 then 1 else 2 * Pow2(n - 1)
  }

  lemma {:induction false} ParkLengthIs(trials: nat)
    ensures ParkLength(trials) ==
            if PARK_INITIAL * Pow2(trials) > PARK_MAX then PARK_MAX else PARK_INITIAL * Pow2(trials)
  {
    if trials > 0 { ParkLengthIs(trials - 1); }
  }

  lemma {:induction false} ParkLengthPositive(trials: nat)
    ensures 0 < ParkLength(trials) <= PARK_MAX
  {
    if trials > 0 { ParkLengthPositive(trials - 1); }
  }

  // ---- runs ---------------------------------------------------------------------------------

  datatype Event =
    | Round(slots: seq<ParkSlot>, byTag: map<string, S.NodeStatus>, now: int)
    | Release(now: int)
    | Unpark(keys: seq<string>)

  function After(nodes: Nodes, e: Event): (Nodes, seq<Park>) {
    match e
    case Round(slots, byTag, now) => SlotsAfter(Kept(nodes, slots), slots, byTag, now)
    case Release(now) => (Released(nodes, now), [])
    case Unpark(keys) => (nodes - Elems(keys), [])
  }

  function RunOf(es: seq<Event>): Nodes {
    if es == [] then map[] else After(RunOf(es[..|es| - 1]), es[|es| - 1]).0
  }

  // ---- how long a node has been dead when it is parked ------------------------------------------

  // A record that still counts from before this round is the record of before,
  // and nothing seen of the node in this round was alive.
  predicate Carries(before: Option<ParkState>, after: Option<ParkState>, now: int, sawAlive: bool, sawDead: bool) {
    after.Some? && after.value.deadSince.Some? ==>
      (after.value.deadSince == Some(now) && sawDead) || (after == before && !sawAlive)
  }

  ghost predicate SawAlive(slot: ParkSlot, byTag: map<string, S.NodeStatus>, n: nat, key: string)
    requires n <= |slot.members|
  {
    key in slot.members[..n] && ShowsAlive(slot, byTag, key)
  }

  ghost predicate SawDead(slot: ParkSlot, byTag: map<string, S.NodeStatus>, n: nat, key: string)
    requires n <= |slot.members|
  {
    key in slot.members[..n] && ShowsDead(slot, byTag, key)
  }

  // What led to a park: the node's record as the round began, and how long it had been dead by it.
  ghost predicate LongDead(nodes: Nodes, p: Park, now: int) {
    p.key in nodes && nodes[p.key].deadSince.Some? &&
    var ps := nodes[p.key];
    && now - ps.deadSince.value >= Waits(ps)
    && p.length == NextLength(ps)
  }

  lemma SeeCarries(ps: Option<ParkState>, st: Option<S.NodeStatus>, now: int, aliveCount: nat, remaining: int)
    ensures var (after, parked) := See(ps, st, now, aliveCount, remaining);
            && Carries(ps, after, now, st.Some? && st.value.alive, st.Some? && Dead(st.value))
            && (parked ==> ps.Some? && ps.value.deadSince.Some? && now - ps.value.deadSince.value >= Waits(ps.value) &&
                           after.Some? && after.value == Parked(ps.value, now))
  {
  }

  // What the n-th member adds to a slot's round.
  lemma SlotNext(nodes: Nodes, slot: ParkSlot, byTag: map<string, S.NodeStatus>, now: int, n: nat, key: string)
    requires 0 < n <= |slot.members|
    ensures var p, q, k := SlotAfter(nodes, slot, byTag, now, n - 1), SlotAfter(nodes, slot, byTag, now, n),
            slot.members[n - 1];
            var before, after := S.Get(p.nodes, key), S.Get(q.nodes, key);
            if k != key then
              after == before && forall i :: 0 <= i < |q.parks| && q.parks[i].key == key ==>
                    i < |p.parks| && q.parks[i] == p.parks[i]
            else
              && Carries(before, after, now, ShowsAlive(slot, byTag, key), ShowsDead(slot, byTag, key))
              && forall i :: 0 <= i < |q.parks| && q.parks[i].key == key ==>
                   (i < |p.parks| && q.parks[i] == p.parks[i]) || (key in p.nodes && LongDead(p.nodes, q.parks[i], now))
  {
    var p, k := SlotAfter(nodes, slot, byTag, now, n - 1), slot.members[n - 1];
    var st, alive := StatusOf(slot, byTag, k), AliveCount(slot, byTag, |slot.members|);
    SeeCarries(S.Get(p.nodes, k), st, now, alive, p.remaining);
    hide See, AliveCount, StatusOf, NextLength, Waits;
  }

  lemma {:induction false} SlotCarries(nodes: Nodes, slot: ParkSlot, byTag: map<string, S.NodeStatus>, now: int,
                                       n: nat, key: string)
    requires n <= |slot.members|
    ensures var p := SlotAfter(nodes, slot, byTag, now, n);
            && Carries(S.Get(nodes, key), S.Get(p.nodes, key), now, SawAlive(slot, byTag, n, key),
                       SawDead(slot, byTag, n, key))
            && forall i :: 0 <= i < |p.parks| && p.parks[i].key == key ==> LongDead(nodes, p.parks[i], now)
  {
    if n == 0 {
      assert S.Get(SlotAfter(nodes, slot, byTag, now, 0).nodes, key) == S.Get(nodes, key);
    } else {
      SlotCarries(nodes, slot, byTag, now, n - 1, key);
      SlotNext(nodes, slot, byTag, now, n, key);
      SawSnoc(slot, byTag, n, key);
      hide SlotAfter, SawAlive, SawDead, LongDead, ShowsAlive, ShowsDead, Carries;
      var p, q := SlotAfter(nodes, slot, byTag, now, n - 1), SlotAfter(nodes, slot, byTag, now, n);
      var sawAlive, sawDead := SawAlive(slot, byTag, n - 1, key), SawDead(slot, byTag, n - 1, key);
      if slot.members[n - 1] == key {
        CarriesOn(S.Get(nodes, key), S.Get(p.nodes, key), S.Get(q.nodes, key), now, sawAlive, sawDead,
                  ShowsAlive(slot, byTag, key), ShowsDead(slot, byTag, key));
      }
      forall i | 0 <= i < |q.parks| && q.parks[i].key == key ensures LongDead(nodes, q.parks[i], now) {
        if LongDead(p.nodes, q.parks[i], now) { StillLongDead(nodes, p.nodes, q.parks[i], now, sawAlive, sawDead); }
      }
    }
  }

  lemma SawSnoc(slot: ParkSlot, byTag: map<string, S.NodeStatus>, n: nat, key: string)
    requires 0 < n <= |slot.members|
    ensures SawAlive(slot, byTag, n, key) <==>
              SawAlive(slot, byTag, n - 1, key) || (slot.members[n - 1] == key && ShowsAlive(slot, byTag, key))
    ensures SawDead(slot, byTag, n, key) <==>
              SawDead(slot, byTag, n - 1, key) || (slot.members[n - 1] == key && ShowsDead(slot, byTag, key))
  {
    hide ShowsAlive, ShowsDead;
    assert slot.members[..n] == slot.members[..n - 1] + [slot.members[n - 1]];
  }

  ghost predicate AliveInRound(slots: seq<ParkSlot>, byTag: map<string, S.NodeStatus>, key: string) {
    exists s :: s in slots && !s.never && key in s.members && ShowsAlive(s, byTag, key)
  }

  ghost predicate DeadInRound(slots: seq<ParkSlot>, byTag: map<string, S.NodeStatus>, key: string) {
    exists s :: s in slots && !s.never && key in s.members && ShowsDead(s, byTag, key)
  }

  lemma CarriesOn(a: Option<ParkState>, b: Option<ParkState>, c: Option<ParkState>, now: int, alive1: bool,
                  dead1: bool, alive2: bool, dead2: bool)
    requires Carries(a, b, now, alive1, dead1) && Carries(b, c, now, alive2, dead2)
    ensures Carries(a, c, now, alive1 || alive2, dead1 || dead2)
  {
  }

  lemma {:induction false} RoundCarries(nodes: Nodes, slots: seq<ParkSlot>, byTag: map<string, S.NodeStatus>, now: int,
                                        key: string)
    ensures var (ns, parks) := SlotsAfter(nodes, slots, byTag, now);
            && Carries(S.Get(nodes, key), S.Get(ns, key), now, AliveInRound(slots, byTag, key),
                       DeadInRound(slots, byTag, key))
            && forall i :: 0 <= i < |parks| && parks[i].key == key ==> LongDead(nodes, parks[i], now)
  {
    if slots != [] {
      hide SlotAfter, ShowsAlive, ShowsDead, LongDead;
      var init, s := slots[..|slots| - 1], slots[|slots| - 1];
      RoundCarries(nodes, init, byTag, now, key);
      assert slots == init + [s];
      RoundsGrow(init, s, byTag, key);
      if !s.never {
        var (ns, parks) := SlotsAfter(nodes, init, byTag, now);
        SlotCarries(ns, s, byTag, now, |s.members|, key);
        assert s.members[..|s.members|] == s.members;
        var p := SlotAfter(ns, s, byTag, now, |s.members|);
        CarriesOn(S.Get(nodes, key), S.Get(ns, key), S.Get(p.nodes, key), now, AliveInRound(init, byTag, key),
                  DeadInRound(init, byTag, key),
                  SawAlive(s, byTag, |s.members|, key), SawDead(s, byTag, |s.members|, key));
        forall i | 0 <= i < |p.parks| && p.parks[i].key == key ensures LongDead(nodes, p.parks[i], now) {
          StillLongDead(nodes, ns, p.parks[i], now, AliveInRound(init, byTag, key), DeadInRound(init, byTag, key));
        }
      }
    }
  }

  lemma RoundsGrow(init: seq<ParkSlot>, s: ParkSlot, byTag: map<string, S.NodeStatus>, key: string)
    ensures AliveInRound(init + [s], byTag, key) <==>
            AliveInRound(init, byTag, key) || (!s.never && SawAlive(s, byTag, |s.members|, key))
    ensures DeadInRound(init + [s], byTag, key) <==>
            DeadInRound(init, byTag, key) || (!s.never && SawDead(s, byTag, |s.members|, key))
  {
    hide ShowsAlive, ShowsDead;
    assert s.members[..|s.members|] == s.members;
    assert forall t :: t in init + [s] <==> t in init || t == s;
  }

  lemma StillLongDead(nodes: Nodes, ns: Nodes, p: Park, now: int, sawAlive: bool, sawDead: bool)
    requires Carries(S.Get(nodes, p.key), S.Get(ns, p.key), now, sawAlive, sawDead) && LongDead(ns, p, now)
    ensures LongDead(nodes, p, now)
  {
  }

  // The round that first saw the node dead, none since having seen it alive.
  ghost predicate DeadFrom(es: seq<Event>, j: nat, key: string, since: int) {
    && j < |es| && es[j].Round? && es[j].now == since && DeadInRound(es[j].slots, es[j].byTag, key)
    && forall i :: j < i < |es| && es[i].Round? ==> !AliveInRound(es[i].slots, es[i].byTag, key)
  }

  lemma {:induction false} CountsFrom(es: seq<Event>, key: string) returns (j: nat)
    requires key in RunOf(es) && RunOf(es)[key].deadSince.Some?
    ensures DeadFrom(es, j, key, RunOf(es)[key].deadSince.value)
  {
    hide SlotsAfter, AliveInRound, DeadInRound;
    var init, e := es[..|es| - 1], es[|es| - 1];
    var nodes := RunOf(init);
    if e.Round? { RoundCarries(Kept(nodes, e.slots), e.slots, e.byTag, e.now, key); }
    if e.Round? && RunOf(es)[key].deadSince == Some(e.now) && DeadInRound(e.slots, e.byTag, key) {
      j := |es| - 1;
    } else {
      j := CountsFrom(init, key);
      assert es[j] == init[j];
      forall i | j < i < |es| && es[i].Round? ensures !AliveInRound(es[i].slots, es[i].byTag, key) {
        if i < |init| { assert es[i] == init[i]; }
      }
    }
  }

  // Over every run: a parked node had been dead for fifteen minutes, three on
  // trial, without one live ping since it was first seen so.
  lemma ParkTakesTime(es: seq<Event>, e: Event, i: nat) returns (j: nat)
    requires i < |After(RunOf(es), e).1|
    ensures var p := After(RunOf(es), e).1[i];
            && e.Round? && p.key in RunOf(es) && RunOf(es)[p.key].deadSince.Some?
            && e.now - RunOf(es)[p.key].deadSince.value >= Waits(RunOf(es)[p.key])
            && DeadFrom(es, j, p.key, RunOf(es)[p.key].deadSince.value)
  {
    hide SlotsAfter, DeadFrom;
    var p := After(RunOf(es), e).1[i];
    RoundCarries(Kept(RunOf(es), e.slots), e.slots, e.byTag, e.now, p.key);
    j := CountsFrom(es, p.key);
  }

  // ---- how many trials a node has failed -------------------------------------------------------

  // Not parked since its record began, parked, or back from a park.
  datatype Where = Here | Away | OnTrial

  datatype Standing = Standing(where: Where, failed: nat)

  ghost predicate ParkedIn(parks: seq<Park>, key: string) {
    exists i :: 0 <= i < |parks| && parks[i].key == key
  }

  // Read off the trace alone, what was pinged and what was reported: where a node
  // is, and how many trials it has failed in a row. A live ping starts it over,
  // and so does an unpark, and leaving every pool without being parked.
  ghost function StandingOf(es: seq<Event>, key: string): Standing {
    if es == [] then Standing(Here, 0)
    else
      var init, e := es[..|es| - 1], es[|es| - 1];
      var s := StandingOf(init, key);
      match e
      case Round(slots, byTag, now) =>
        if AliveInRound(slots, byTag, key) || (key !in LoadedKeys(slots) && s.where != Away) then Standing(Here, 0)
        else if ParkedIn(After(RunOf(init), e).1, key) then Standing(Away, TrialsFailed(s))
        else s
      case Release(now) => if key in Back(RunOf(init), now) then Standing(OnTrial, s.failed) else s
      case Unpark(keys) => if key in keys then Standing(Here, 0) else s
  }

  // Counting the trial a park would end now.
  function TrialsFailed(s: Standing): nat {
    if s.where == OnTrial then s.failed + 1 else s.failed
  }

  predicate Fresh(ps: ParkState, now: int) {
    ps == ParkState(Some(now), None, 0, false)
  }

  // What becomes of a record in part of a round: started over by a live ping,
  // parked, or left as it was but for the start of its count.
  predicate Goes(before: Option<ParkState>, after: Option<ParkState>, now: int, sawAlive: bool, parked: bool) {
    if sawAlive then after.None? || Fresh(after.value, now)
    else if parked then
      && before.Some? && before.value.deadSince.Some? && before.value.deadSince != Some(now)
      && after.Some? && after.value.parkFor == NextLength(before.value)
      && !after.value.onTrial && after.value.parkedUntil.Some?
      && (after.value.deadSince.None? || after.value.deadSince == Some(now))
    else if before.None? then after.None? || Fresh(after.value, now)
    else after == before || (before.value.deadSince.None? && after == Some(before.value.(deadSince := Some(now))))
  }

  lemma SeeGoes(ps: Option<ParkState>, st: Option<S.NodeStatus>, now: int, aliveCount: nat, remaining: int)
    ensures var (after, parked) := See(ps, st, now, aliveCount, remaining);
            Goes(ps, after, now, st.Some? && st.value.alive, parked) && (parked ==> after.Some?)
  {
  }

  lemma GoesOn(a: Option<ParkState>, b: Option<ParkState>, c: Option<ParkState>, now: int,
               alive1: bool, parked1: bool, alive2: bool, parked2: bool)
    requires Goes(a, b, now, alive1, parked1) && Goes(b, c, now, alive2, parked2)
    ensures Goes(a, c, now, alive1 || alive2, parked1 || parked2)
  {
  }

  lemma ParkedJoin(a: seq<Park>, b: seq<Park>, key: string)
    ensures ParkedIn(a + b, key) <==> ParkedIn(a, key) || ParkedIn(b, key)
  {
    forall i | 0 <= i < |a| && a[i].key == key ensures ParkedIn(a + b, key) { assert (a + b)[i] == a[i]; }
    forall i | 0 <= i < |b| && b[i].key == key ensures ParkedIn(a + b, key) { assert (a + b)[|a| + i] == b[i]; }
  }

  // What the n-th member adds.
  lemma MemberGoes(nodes: Nodes, slot: ParkSlot, byTag: map<string, S.NodeStatus>, now: int, n: nat, key: string)
    returns (parked: bool)
    requires 0 < n <= |slot.members|
    ensures var p, q := SlotAfter(nodes, slot, byTag, now, n - 1), SlotAfter(nodes, slot, byTag, now, n);
            if slot.members[n - 1] != key then
              S.Get(q.nodes, key) == S.Get(p.nodes, key) && (ParkedIn(q.parks, key) <==> ParkedIn(p.parks, key))
            else
              && Goes(S.Get(p.nodes, key), S.Get(q.nodes, key), now, ShowsAlive(slot, byTag, key), parked)
              && (ParkedIn(q.parks, key) <==> ParkedIn(p.parks, key) || parked)
  {
    var p, k := SlotAfter(nodes, slot, byTag, now, n - 1), slot.members[n - 1];
    var st, alive := StatusOf(slot, byTag, k), AliveCount(slot, byTag, |slot.members|);
    var (ps, done) := See(S.Get(p.nodes, k), st, now, alive, p.remaining);
    SeeGoes(S.Get(p.nodes, k), st, now, alive, p.remaining);
    assert (st.Some? && st.value.alive) == ShowsAlive(slot, byTag, k);
    hide See, AliveCount, StatusOf, Goes, ParkedIn, ShowsAlive;
    parked := done;
    if parked {
      ParkedJoin(p.parks, [Park(k, ps.value.parkFor)], key);
      OnePark(Park(k, ps.value.parkFor), key);
    }
  }

  lemma OnePark(p: Park, key: string)
    ensures ParkedIn([p], key) <==> p.key == key
  {
    assert [p][0] == p;
  }

  lemma {:induction false} SlotGoes(nodes: Nodes, slot: ParkSlot, byTag: map<string, S.NodeStatus>, now: int, n: nat,
                                    key: string)
    requires n <= |slot.members|
    ensures var p := SlotAfter(nodes, slot, byTag, now, n);
            Goes(S.Get(nodes, key), S.Get(p.nodes, key), now, SawAlive(slot, byTag, n, key), ParkedIn(p.parks, key))
  {
    if n > 0 {
      SlotGoes(nodes, slot, byTag, now, n - 1, key);
      var parked := MemberGoes(nodes, slot, byTag, now, n, key);
      SawSnoc(slot, byTag, n, key);
      hide SlotAfter, SawAlive, SawDead, ShowsAlive, ShowsDead, Goes, ParkedIn;
      var p, q := SlotAfter(nodes, slot, byTag, now, n - 1), SlotAfter(nodes, slot, byTag, now, n);
      if slot.members[n - 1] == key {
        GoesOn(S.Get(nodes, key), S.Get(p.nodes, key), S.Get(q.nodes, key), now, SawAlive(slot, byTag, n - 1, key),
               ParkedIn(p.parks, key), ShowsAlive(slot, byTag, key), parked);
      }
    }
  }

  lemma {:induction false} RoundGoes(nodes: Nodes, slots: seq<ParkSlot>, byTag: map<string, S.NodeStatus>, now: int,
                                     key: string)
    ensures var (ns, parks) := SlotsAfter(nodes, slots, byTag, now);
            Goes(S.Get(nodes, key), S.Get(ns, key), now, AliveInRound(slots, byTag, key), ParkedIn(parks, key))
  {
    if slots != [] {
      hide SlotAfter, ShowsAlive, ShowsDead, Goes, ParkedIn;
      var init, s := slots[..|slots| - 1], slots[|slots| - 1];
      RoundGoes(nodes, init, byTag, now, key);
      assert slots == init + [s];
      RoundsGrow(init, s, byTag, key);
      if !s.never {
        var (ns, parks) := SlotsAfter(nodes, init, byTag, now);
        SlotGoes(ns, s, byTag, now, |s.members|, key);
        var p := SlotAfter(ns, s, byTag, now, |s.members|);
        ParkedJoin(parks, p.parks, key);
        GoesOn(S.Get(nodes, key), S.Get(ns, key), S.Get(p.nodes, key), now, AliveInRound(init, byTag, key),
               ParkedIn(parks, key), SawAlive(s, byTag, |s.members|, key), ParkedIn(p.parks, key));
      }
    }
  }

  // The record a node has, if any, against where the trace says it stands.
  predicate Agrees(ps: Option<ParkState>, s: Standing) {
    if ps.None? then s == Standing(Here, 0)
    else
      && (ps.value.onTrial <==> s.where == OnTrial) && (ps.value.parkedUntil.Some? <==> s.where == Away)
      && if s.where == Here then s.failed == 0 && ps.value.parkFor == 0 else ps.value.parkFor == ParkLength(s.failed)
  }

  lemma RoundAgrees(kept: Option<ParkState>, after: Option<ParkState>, now: int, sawAlive: bool, parked: bool,
                    s: Standing)
    requires Goes(kept, after, now, sawAlive, parked) && Agrees(kept, s)
    ensures Agrees(after, if sawAlive then Standing(Here, 0) else if parked then Standing(Away, TrialsFailed(s)) else s)
  {
    ParkLengthPositive(s.failed);
  }

  // The parker keeps no count of failed trials, but the length it parks for next
  // always is the one the trace calls for.
  lemma {:induction false} RecordAgrees(es: seq<Event>, key: string)
    ensures Agrees(S.Get(RunOf(es), key), StandingOf(es, key))
  {
    if es != [] {
      hide SlotsAfter, AliveInRound, ParkedIn, Agrees, Goes, ParkLength;
      var init, e := es[..|es| - 1], es[|es| - 1];
      var nodes, s := RunOf(init), StandingOf(init, key);
      RecordAgrees(init, key);
      match e
      case Round(slots, byTag, now) => RoundStands(nodes, slots, byTag, now, key, s);
      case Release(now) => ReleaseAgrees(nodes, now, key, s);
      case Unpark(keys) => UnparkAgrees(nodes, keys, key, s);
    }
  }

  lemma RoundStands(nodes: Nodes, slots: seq<ParkSlot>, byTag: map<string, S.NodeStatus>, now: int, key: string,
                    s: Standing)
    requires Agrees(S.Get(nodes, key), s)
    ensures var (after, parks) := SlotsAfter(Kept(nodes, slots), slots, byTag, now);
            Agrees(S.Get(after, key),
                   if AliveInRound(slots, byTag, key) || (key !in LoadedKeys(slots) && s.where != Away)
                   then Standing(Here, 0)
                   else if ParkedIn(parks, key) then Standing(Away, TrialsFailed(s))
                   else s)
  {
    hide SlotsAfter, AliveInRound, ParkedIn, Agrees, Goes, Kept, LoadedKeys;
    var kept := Kept(nodes, slots);
    RoundGoes(kept, slots, byTag, now, key);
    KeptAgrees(nodes, slots, key, s);
    var s' := if key !in LoadedKeys(slots) && s.where != Away then Standing(Here, 0) else s;
    RoundAgrees(S.Get(kept, key), S.Get(SlotsAfter(kept, slots, byTag, now).0, key), now,
                AliveInRound(slots, byTag, key),
                ParkedIn(SlotsAfter(kept, slots, byTag, now).1, key), s');
    if key !in LoadedKeys(slots) { NotLoaded(kept, slots, byTag, now, key); }
  }

  lemma KeptAgrees(nodes: Nodes, slots: seq<ParkSlot>, key: string, s: Standing)
    requires Agrees(S.Get(nodes, key), s)
    ensures Agrees(S.Get(Kept(nodes, slots), key),
                   if key !in LoadedKeys(slots) && s.where != Away then Standing(Here, 0) else s)
  {
    hide LoadedKeys, ParkLength;
  }

  lemma ReleaseAgrees(nodes: Nodes, now: int, key: string, s: Standing)
    requires Agrees(S.Get(nodes, key), s)
    ensures Agrees(S.Get(Released(nodes, now), key), if key in Back(nodes, now) then Standing(OnTrial, s.failed) else s)
  {
    hide ParkLength;
  }

  lemma UnparkAgrees(nodes: Nodes, keys: seq<string>, key: string, s: Standing)
    requires Agrees(S.Get(nodes, key), s)
    ensures Agrees(S.Get(nodes - Elems(keys), key), if key in keys then Standing(Here, 0) else s)
  {
  }

  // A node in no slot is neither seen nor parked.
  lemma {:induction false} NotLoaded(nodes: Nodes, slots: seq<ParkSlot>, byTag: map<string, S.NodeStatus>, now: int,
                                     key: string)
    requires key !in LoadedKeys(slots)
    ensures !AliveInRound(slots, byTag, key) && !ParkedIn(SlotsAfter(nodes, slots, byTag, now).1, key)
  {
    forall s | s in slots ensures key !in s.members { assert key in s.members ==> key in LoadedKeys(slots); }
    if slots != [] {
      hide SlotAfter, ShowsAlive, ParkedIn;
      var init, s := slots[..|slots| - 1], slots[|slots| - 1];
      assert slots == init + [s];
      forall t | t in init ensures t in slots { }
      assert key !in LoadedKeys(init);
      NotLoaded(nodes, init, byTag, now, key);
      var (ns, parks) := SlotsAfter(nodes, init, byTag, now);
      if !s.never {
        OnlyMembersParked(ns, s, byTag, now, |s.members|, key);
        ParkedJoin(parks, SlotAfter(ns, s, byTag, now, |s.members|).parks, key);
      }
    } else {
      assert !ParkedIn([], key);
    }
  }

  lemma {:induction false} OnlyMembersParked(nodes: Nodes, slot: ParkSlot, byTag: map<string, S.NodeStatus>, now: int,
                                             n: nat, key: string)
    requires n <= |slot.members| && key !in slot.members
    ensures !ParkedIn(SlotAfter(nodes, slot, byTag, now, n).parks, key)
  {
    if n > 0 {
      OnlyMembersParked(nodes, slot, byTag, now, n - 1, key);
      var _ := MemberGoes(nodes, slot, byTag, now, n, key);
      hide SlotAfter, ParkedIn;
      assert slot.members[n - 1] in slot.members;
    }
  }

  // Over every run of rounds, releases and unparks: a park after n trials failed
  // in a row lasts min(30 * 2^n, 360) minutes.
  lemma ParksDouble(es: seq<Event>, e: Event, i: nat)
    requires i < |After(RunOf(es), e).1|
    ensures var p := After(RunOf(es), e).1[i];
            var n := TrialsFailed(StandingOf(es, p.key));
            p.length == if 1800 * Pow2(n) > 21600 then 21600 else 1800 * Pow2(n)
  {
    hide SlotsAfter, StandingOf, RunOf, Pow2;
    var p := After(RunOf(es), e).1[i];
    var s := StandingOf(es, p.key);
    RoundCarries(Kept(RunOf(es), e.slots), e.slots, e.byTag, e.now, p.key);
    RecordAgrees(es, p.key);
    ParkLengthPositive(s.failed);
    ParkLengthIs(TrialsFailed(s));
  }

  // ---- what a live ping does ------------------------------------------------------------------

  lemma {:induction false} SlotForgets(nodes: Nodes, slot: ParkSlot, byTag: map<string, S.NodeStatus>, now: int,
                                       n: nat, key: string)
    requires n <= |slot.members|
    requires key !in nodes || (ShowsAlive(slot, byTag, key) && key in slot.members[..n])
    requires !ShowsDead(slot, byTag, key)
    ensures key !in SlotAfter(nodes, slot, byTag, now, n).nodes
  {
    if n > 0 {
      hide AliveCount, SlotMemberTag;
      assert slot.members[..n] == slot.members[..n - 1] + [slot.members[n - 1]];
      if key !in nodes || key in slot.members[..n - 1] { SlotForgets(nodes, slot, byTag, now, n - 1, key); }
    }
  }

  // A live ping in one of its slots, and no dead round in another, erases a
  // node's record: it is neither parked nor counted against any more.
  lemma {:induction false} LivePingErases(nodes: Nodes, slots: seq<ParkSlot>, byTag: map<string, S.NodeStatus>,
                                          now: int, key: string)
    requires key !in nodes || exists s :: s in slots && !s.never && key in s.members && ShowsAlive(s, byTag, key)
    requires forall s :: s in slots ==> !ShowsDead(s, byTag, key)
    ensures key !in SlotsAfter(nodes, slots, byTag, now).0
  {
    if slots != [] {
      hide SlotAfter, ShowsAlive, ShowsDead;
      var init, last := slots[..|slots| - 1], slots[|slots| - 1];
      assert slots == init + [last];
      var ns := SlotsAfter(nodes, init, byTag, now).0;
      if key !in nodes || exists s :: s in init && !s.never && key in s.members && ShowsAlive(s, byTag, key) {
        LivePingErases(nodes, init, byTag, now, key);
      }
      assert last.members[..|last.members|] == last.members;
      if !last.never { SlotForgets(ns, last, byTag, now, |last.members|, key); }
    }
  }
}
