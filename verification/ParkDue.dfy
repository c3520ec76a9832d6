// When a dead node is parked: exactly when its time has come
// (daemon/nodepark.go: observe).
module ParkDue {
  import opened Wrappers
  import opened Sorting
  import opened Tags
  import S = NodeScores
  import opened NodePark

  // Another member of the slot answers.
  predicate SomeoneAlive(slot: ParkSlot, byTag: map<string, S.NodeStatus>) {
    exists k :: k in slot.members && ShowsAlive(slot, byTag, k)
  }

  // The clock of a record has run its time: fifteen minutes, three on trial.
  predicate TimeUp(ps: Option<ParkState>, now: int) {
    ps.Some? && ps.value.deadSince.Some? && now - ps.value.deadSince.value >= if ps.value.onTrial then 180 else 900
  }

  // ---- one slot ------------------------------------------------------------------

  // Parking never runs out of members while one that is dead is looked at beside a
  // live one: those still in the pool outnumber those looked at by the live ones among them.
  lemma {:induction false} MembersLeft(nodes: Nodes, slot: ParkSlot, byTag: map<string, S.NodeStatus>, now: int, n: nat)
    requires n <= |slot.members|
    ensures SlotAfter(nodes, slot, byTag, now, n).remaining >= |slot.members| - n + AliveCount(slot, byTag, n)
  {
    if n > 0 {
      MembersLeft(nodes, slot, byTag, now, n - 1);
      var p, key := SlotAfter(nodes, slot, byTag, now, n - 1), slot.members[n - 1];
      SeeParks(S.Get(p.nodes, key), StatusOf(slot, byTag, key), now, AliveCount(slot, byTag, |slot.members|),
               p.remaining);
      assert StatusOf(slot, byTag, key).Some? && StatusOf(slot, byTag, key).value.alive <==>
            ShowsAlive(slot, byTag, key);
      hide StatusOf, See, ShowsAlive;
    }
  }

  lemma {:induction false} AliveCounts(slot: ParkSlot, byTag: map<string, S.NodeStatus>, n: nat)
    requires n <= |slot.members|
    ensures AliveCount(slot, byTag, n) > 0 <==> exists i :: 0 <= i < n && ShowsAlive(slot, byTag, slot.members[i])
    ensures AliveCount(slot, byTag, n) <= n
  {
    if n > 0 {
      AliveCounts(slot, byTag, n - 1);
      hide ShowsAlive;
    }
  }

  lemma TwoLeft(nodes: Nodes, slot: ParkSlot, byTag: map<string, S.NodeStatus>, now: int, n: nat)
    requires 0 < n <= |slot.members| && ShowsDead(slot, byTag, slot.members[n - 1]) && SomeoneAlive(slot, byTag)
    ensures SlotAfter(nodes, slot, byTag, now, n - 1).remaining > 1
    ensures AliveCount(slot, byTag, |slot.members|) > 0
  {
    hide *;
    MembersLeft(nodes, slot, byTag, now, n - 1);
    LiveElsewhere(slot, byTag, n);
  }

  lemma LiveElsewhere(slot: ParkSlot, byTag: map<string, S.NodeStatus>, n: nat)
    requires 0 < n <= |slot.members| && ShowsDead(slot, byTag, slot.members[n - 1]) && SomeoneAlive(slot, byTag)
    ensures |slot.members| - (n - 1) + AliveCount(slot, byTag, n - 1) > 1
    ensures AliveCount(slot, byTag, |slot.members|) > 0
  {
    hide AliveCount, ShowsAlive, ShowsDead;
    DeadNotAlive(slot, byTag, slot.members[n - 1]);
    AliveCounts(slot, byTag, n - 1);
    AliveCounts(slot, byTag, |slot.members|);
    var k :| k in slot.members && ShowsAlive(slot, byTag, k);
    var i :| 0 <= i < |slot.members| && slot.members[i] == k;
    if i < n - 1 { assert AliveCount(slot, byTag, n - 1) > 0; } else { assert i >= n; }
  }

  lemma DeadNotAlive(slot: ParkSlot, byTag: map<string, S.NodeStatus>, key: string)
    ensures !(ShowsAlive(slot, byTag, key) && ShowsDead(slot, byTag, key))
  {
  }

  // What one look at a dead member with a record does.
  lemma SeeDue(ps: Option<ParkState>, st: Option<S.NodeStatus>, now: int, aliveCount: nat, remaining: int)
    requires aliveCount > 0 && remaining > 1
    ensures See(ps, st, now, aliveCount, remaining).1 <==> st.Some? && Dead(st.value) && TimeUp(ps, now)
  {
  }

  lemma NobodyAlive(ps: Option<ParkState>, st: Option<S.NodeStatus>, now: int, remaining: int)
    ensures !See(ps, st, now, 0, remaining).1
  {
  }

  // A member is parked exactly when it shows dead, another answers, and its time is up.
  lemma {:induction false} ParkedInSlotIff(nodes: Nodes, slot: ParkSlot, byTag: map<string, S.NodeStatus>, now: int,
                                           n: nat, key: string)
    requires n <= |slot.members| && Distinct(slot.members)
    ensures ParkedIn(SlotAfter(nodes, slot, byTag, now, n).parks, key) <==>
            && key in slot.members[..n] && ShowsDead(slot, byTag, key) && SomeoneAlive(slot, byTag)
            && TimeUp(S.Get(nodes, key), now)
    ensures key !in slot.members[..n] ==> S.Get(SlotAfter(nodes, slot, byTag, now, n).nodes, key) == S.Get(nodes, key)
  {
    if n == 0 {
      hide ShowsDead, SomeoneAlive, TimeUp;
    } else {
      hide SlotAfter, ShowsDead, SomeoneAlive, TimeUp, ParkedIn;
      ParkedInSlotIff(nodes, slot, byTag, now, n - 1, key);
      var init, k := slot.members[..n - 1], slot.members[n - 1];
      assert slot.members[..n] == init + [k] && k !in init;
      if k != key {
        var _ := MemberGoes(nodes, slot, byTag, now, n, key);
      } else {
        LookedAt(nodes, slot, byTag, now, n, key);
      }
    }
  }

  lemma LookedAt(nodes: Nodes, slot: ParkSlot, byTag: map<string, S.NodeStatus>, now: int, n: nat, key: string)
    requires 0 < n <= |slot.members| && slot.members[n - 1] == key
    requires !ParkedIn(SlotAfter(nodes, slot, byTag, now, n - 1).parks, key)
    requires S.Get(SlotAfter(nodes, slot, byTag, now, n - 1).nodes, key) == S.Get(nodes, key)
    ensures ParkedIn(SlotAfter(nodes, slot, byTag, now, n).parks, key) <==>
            ShowsDead(slot, byTag, key) && SomeoneAlive(slot, byTag) && TimeUp(S.Get(nodes, key), now)
  {
    var p, alive := SlotAfter(nodes, slot, byTag, now, n - 1), AliveCount(slot, byTag, |slot.members|);
    var st := StatusOf(slot, byTag, key);
    var (ps, parked) := See(S.Get(nodes, key), st, now, alive, p.remaining);
    SeeParks(S.Get(nodes, key), st, now, alive, p.remaining);
    if ShowsDead(slot, byTag, key) && SomeoneAlive(slot, byTag) {
      TwoLeft(nodes, slot, byTag, now, n);
      SeeDue(S.Get(nodes, key), st, now, alive, p.remaining);
    }
    AliveCounts(slot, byTag, |slot.members|);
    assert alive > 0 ==> SomeoneAlive(slot, byTag);
    hide See, AliveCount, StatusOf, SomeoneAlive, TimeUp, ParkedIn;
    if parked {
      ParkedJoin(p.parks, [Park(key, ps.value.parkFor)], key);
      OnePark(Park(key, ps.value.parkFor), key);
    }
  }

  // ---- a round ----------------------------------------------------------------------

  // The one slot that parks in which a node is.
  predicate OnlyIn(slots: seq<ParkSlot>, i: nat, key: string) {
    && i < |slots| && !slots[i].never && key in slots[i].members && Distinct(slots[i].members)
    && forall j :: 0 <= j < |slots| && j != i ==> slots[j].never || key !in slots[j].members
  }

  lemma {:induction false} NotInSlot(nodes: Nodes, slot: ParkSlot, byTag: map<string, S.NodeStatus>, now: int, n: nat,
                                     key: string)
    requires n <= |slot.members| && key !in slot.members
    ensures S.Get(SlotAfter(nodes, slot, byTag, now, n).nodes, key) == S.Get(nodes, key)
  {
    if n > 0 {
      NotInSlot(nodes, slot, byTag, now, n - 1, key);
      assert slot.members[n - 1] != key;
      hide See, StatusOf;
    }
  }

  // In no slot that parks a node is neither touched nor parked.
  lemma {:induction false} Untouched(nodes: Nodes, slots: seq<ParkSlot>, byTag: map<string, S.NodeStatus>, now: int,
                                     key: string)
    requires forall s :: s in slots ==> s.never || key !in s.members
    ensures var (ns, parks) := SlotsAfter(nodes, slots, byTag, now);
            S.Get(ns, key) == S.Get(nodes, key) && !ParkedIn(parks, key)
  {
    if slots != [] {
      var init, s := slots[..|slots| - 1], slots[|slots| - 1];
      assert s in slots && forall t :: t in init ==> t in slots;
      Untouched(nodes, init, byTag, now, key);
      hide SlotAfter, ParkedIn;
      if !s.never {
        var (ns, parks) := SlotsAfter(nodes, init, byTag, now);
        NotInSlot(ns, s, byTag, now, |s.members|, key);
        OnlyMembersParked(ns, s, byTag, now, |s.members|, key);
        ParkedJoin(parks, SlotAfter(ns, s, byTag, now, |s.members|).parks, key);
      }
    } else {
      assert !ParkedIn([], key);
    }
  }

  lemma {:induction false} ParkedInRoundIff(nodes: Nodes, slots: seq<ParkSlot>, byTag: map<string, S.NodeStatus>,
                                            now: int, i: nat, key: string)
    requires OnlyIn(slots, i, key)
    ensures ParkedIn(SlotsAfter(nodes, slots, byTag, now).1, key) <==>
            ShowsDead(slots[i], byTag, key) && SomeoneAlive(slots[i], byTag) && TimeUp(S.Get(nodes, key), now)
  {
    hide SlotAfter, ShowsDead, SomeoneAlive, TimeUp, ParkedIn;
    var init, s := slots[..|slots| - 1], slots[|slots| - 1];
    var (ns, parks) := SlotsAfter(nodes, init, byTag, now);
    if i == |slots| - 1 {
      Untouched(nodes, init, byTag, now, key);
      ParkedInSlotIff(ns, s, byTag, now, |s.members|, key);
      assert s.members[..|s.members|] == s.members;
    } else {
      assert init[i] == slots[i] && forall j :: 0 <= j < |init| ==> init[j] == slots[j];
      ParkedInRoundIff(nodes, init, byTag, now, i, key);
      if !s.never { OnlyMembersParked(ns, s, byTag, now, |s.members|, key); }
    }
    if !s.never { ParkedJoin(parks, SlotAfter(ns, s, byTag, now, |s.members|).parks, key); }
  }

  // The member answers, or not one of its pings was answered.
  predicate Answers(slot: ParkSlot, byTag: map<string, S.NodeStatus>, key: string) {
    var tag := SlotMemberTag(slot.index, key);
    tag in byTag && byTag[tag].alive
  }

  predicate AllFailed(slot: ParkSlot, byTag: map<string, S.NodeStatus>, key: string) {
    var tag := SlotMemberTag(slot.index, key);
    tag in byTag && !byTag[tag].alive && byTag[tag].fail == byTag[tag].all > 0
  }

  lemma ShowsAre(slot: ParkSlot, byTag: map<string, S.NodeStatus>)
    ensures forall k :: ShowsAlive(slot, byTag, k) <==> Answers(slot, byTag, k)
    ensures forall k :: ShowsDead(slot, byTag, k) <==> AllFailed(slot, byTag, k)
  {
    hide SlotMemberTag;
  }

  // In a round, a node in one pool that parks is parked exactly when all its pings
  // failed, another member answers, and its clock has run its time.
  lemma ParkedIff(nodes: Nodes, slots: seq<ParkSlot>, byTag: map<string, S.NodeStatus>, now: int, i: nat, key: string)
    requires OnlyIn(slots, i, key)
    ensures ParkedIn(SlotsAfter(nodes, slots, byTag, now).1, key) <==>
            && AllFailed(slots[i], byTag, key) && (exists k :: k in slots[i].members && Answers(slots[i], byTag, k))
            && key in nodes && nodes[key].deadSince.Some?
            && now - nodes[key].deadSince.value >= if nodes[key].onTrial then 180 else 900
  {
    hide SlotsAfter, ParkedIn, ShowsDead, ShowsAlive, AllFailed, Answers;
    ShowsAre(slots[i], byTag);
    ParkedInRoundIff(nodes, slots, byTag, now, i, key);
  }

  // ---- runs ---------------------------------------------------------------------------

  // Seen dead and not parked, a member's clock runs.
  lemma {:induction false} ClockStarts(nodes: Nodes, slot: ParkSlot, byTag: map<string, S.NodeStatus>, now: int,
                                       n: nat, key: string)
    requires n <= |slot.members| && key in slot.members[..n] && ShowsDead(slot, byTag, key)
    ensures var p := SlotAfter(nodes, slot, byTag, now, n);
            ParkedIn(p.parks, key) || (key in p.nodes && p.nodes[key].deadSince.Some?)
  {
    assert slot.members[..n] == slot.members[..n - 1] + [slot.members[n - 1]];
    if slot.members[n - 1] == key {
      StartsNow(nodes, slot, byTag, now, n);
    } else {
      ClockStarts(nodes, slot, byTag, now, n - 1, key);
      var _ := MemberGoes(nodes, slot, byTag, now, n, key);
      hide SlotAfter, ParkedIn;
    }
  }

  lemma StartsNow(nodes: Nodes, slot: ParkSlot, byTag: map<string, S.NodeStatus>, now: int, n: nat)
    requires 0 < n <= |slot.members| && ShowsDead(slot, byTag, slot.members[n - 1])
    ensures var p, key := SlotAfter(nodes, slot, byTag, now, n), slot.members[n - 1];
            ParkedIn(p.parks, key) || (key in p.nodes && p.nodes[key].deadSince.Some?)
  {
    var q, key := SlotAfter(nodes, slot, byTag, now, n - 1), slot.members[n - 1];
    var (ps, parked) := See(S.Get(q.nodes, key), StatusOf(slot, byTag, key), now,
                            AliveCount(slot, byTag, |slot.members|), q.remaining);
    assert ps.Some?;
    hide StatusOf, AliveCount, ParkedIn;
    if parked {
      OnePark(Park(key, ps.value.parkFor), key);
      ParkedJoin(q.parks, [Park(key, ps.value.parkFor)], key);
    }
  }

  lemma {:induction false} RoundStarts(nodes: Nodes, slots: seq<ParkSlot>, byTag: map<string, S.NodeStatus>, now: int,
                                       key: string)
    requires DeadInRound(slots, byTag, key) && !AliveInRound(slots, byTag, key)
    ensures var (ns, parks) := SlotsAfter(nodes, slots, byTag, now);
            ParkedIn(parks, key) || (key in ns && ns[key].deadSince.Some?)
  {
    var init, s := slots[..|slots| - 1], slots[|slots| - 1];
    assert slots == init + [s];
    RoundsGrow(init, s, byTag, key);
    assert s.members[..|s.members|] == s.members;
    if !s.never {
      var (ns, parks) := SlotsAfter(nodes, init, byTag, now);
      var p := SlotAfter(ns, s, byTag, now, |s.members|);
      ParkedJoin(parks, p.parks, key);
      if SawDead(s, byTag, |s.members|, key) {
        ClockStarts(ns, s, byTag, now, |s.members|, key);
      } else {
        RoundStarts(nodes, init, byTag, now, key);
        SlotGoes(ns, s, byTag, now, |s.members|, key);
      }
      hide SlotAfter, SawAlive, SawDead, ParkedIn, AliveInRound, DeadInRound;
    } else {
      hide SawAlive, SawDead, AliveInRound, DeadInRound, ParkedIn;
      RoundStarts(nodes, init, byTag, now, key);
    }
  }

  // Nothing starts the node's clock over: no live ping, no leaving every pool, no
  // park, release or unpark of it.
  ghost predicate LeftAlone(es: seq<Event>, i: nat, key: string)
    requires i < |es|
  {
    match es[i]
    case Round(slots, byTag, now) =>
      && key in LoadedKeys(slots) && !AliveInRound(slots, byTag, key)
      && !ParkedIn(After(RunOf(es[..i]), es[i]).1, key)
    case Release(now) => key !in Back(RunOf(es[..i]), now)
    case Unpark(keys) => key !in keys
  }

  ghost predicate ClockForward(es: seq<Event>) {
    forall i, j :: 0 <= i < j < |es| && es[i].Round? && es[j].Round? ==> es[i].now <= es[j].now
  }

  // From the round that sees it dead on, a node left alone keeps a clock started no
  // later than then.
  lemma {:induction false} ClockRuns(es: seq<Event>, j: nat, key: string)
    requires j < |es| && es[j].Round? && DeadInRound(es[j].slots, es[j].byTag, key)
    requires forall i :: j <= i < |es| ==> LeftAlone(es, i, key)
    ensures key in RunOf(es) && RunOf(es)[key].deadSince.Some?
    ensures ClockForward(es) ==> RunOf(es)[key].deadSince.value <= es[j].now
  {
    hide LeftAlone, DeadInRound, Kept, SlotsAfter;
    var init, e := es[..|es| - 1], es[|es| - 1];
    assert LeftAlone(es, |es| - 1, key);
    if j == |es| - 1 {
      StartsAt(es, key);
      var m := CountsFrom(es, key);
    } else {
      forall i | j <= i < |init| ensures LeftAlone(init, i, key) {
        assert LeftAlone(es, i, key);
        AloneBefore(es, i, key);
      }
      ClockRuns(init, j, key);
      AloneKeeps(es, key);
      if ClockForward(es) { assert ClockForward(init); }
    }
  }

  lemma AloneBefore(es: seq<Event>, i: nat, key: string)
    requires i < |es| - 1
    ensures LeftAlone(es[..|es| - 1], i, key) == LeftAlone(es, i, key)
  {
    assert es[..|es| - 1][..i] == es[..i];
    hide AliveInRound, ParkedIn, SlotsAfter, LoadedKeys, RunOf, After;
  }

  lemma StartsAt(es: seq<Event>, key: string)
    requires es != [] && LeftAlone(es, |es| - 1, key)
    requires var e := es[|es| - 1]; e.Round? && DeadInRound(e.slots, e.byTag, key)
    ensures key in RunOf(es) && RunOf(es)[key].deadSince.Some?
  {
    var e := es[|es| - 1];
    RoundStarts(Kept(RunOf(es[..|es| - 1]), e.slots), e.slots, e.byTag, e.now, key);
    hide AliveInRound, ParkedIn, SlotsAfter, LoadedKeys, DeadInRound, Kept;
  }

  lemma AloneKeeps(es: seq<Event>, key: string)
    requires es != [] && LeftAlone(es, |es| - 1, key)
    requires var nodes := RunOf(es[..|es| - 1]); key in nodes && nodes[key].deadSince.Some?
    ensures key in RunOf(es) && RunOf(es)[key] == RunOf(es[..|es| - 1])[key]
  {
    var nodes, e := RunOf(es[..|es| - 1]), es[|es| - 1];
    match e
    case Round(slots, byTag, now) =>
      RoundGoes(Kept(nodes, slots), slots, byTag, now, key);
      hide AliveInRound, ParkedIn, SlotsAfter, LoadedKeys;
    case Release(now) =>
    case Unpark(keys) =>
  }

  // Over every run: a node in one pool that parks, dead for fifteen minutes, or
  // three on trial, since a round from which on it was left alone, is parked in the
  // round that sees it dead still and another member answering.
  lemma DueIsParked(es: seq<Event>, e: Event, j: nat, i: nat, key: string)
    requires e.Round? && ClockForward(es) && OnlyIn(e.slots, i, key)
    requires AllFailed(e.slots[i], e.byTag, key)
    requires exists k :: k in e.slots[i].members && Answers(e.slots[i], e.byTag, k)
    requires j < |es| && es[j].Round? && DeadInRound(es[j].slots, es[j].byTag, key)
    requires forall m :: j <= m < |es| ==> LeftAlone(es, m, key)
    requires e.now - es[j].now >= if StandingOf(es, key).where == OnTrial then 180 else 900
    ensures ParkedIn(After(RunOf(es), e).1, key)
  {
    hide SlotsAfter, StandingOf, LeftAlone, DeadInRound, AllFailed, Answers, ParkedIn;
    ClockRuns(es, j, key);
    RecordAgrees(es, key);
    hide RunOf;
    var nodes := Kept(RunOf(es), e.slots);
    assert key in LoadedKeys(e.slots) by { assert e.slots[i] in e.slots; }
    ParkedIff(nodes, e.slots, e.byTag, e.now, i, key);
  }
}
