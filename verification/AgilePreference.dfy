// Whom the agile pick prefers, read from the same records
// (daemon/nodepick.go: pickAgile).
module AgilePreference {
  import opened Wrappers
  import opened Sorting
  import opened Tags
  import Text
  import opened NodeScores
  import opened StableRanking
  import opened AgileRanking
  import opened Preference


  predicate Up(v: PoolView, k: string) { Polled(v, k) && RecordOf(v, k).alive }

  // What a live member costs now: its chain latency where proven, else the last
  // round trip, or the average when there was none.
  function CostNow(v: PoolView, k: string): real
    requires Up(v, k)
  {
    var r := RecordOf(v, k);
    if Proven(v, k) then v.cv[k].cost else if r.lastRTT != 0.0 then r.lastRTT else r.rttMs
  }

  function AgileOf(v: PoolView, incumbent: seq<string>, incActive: nat): (seq<string>, nat) {
    AgilePick(v.scores, v.idx, v.cv, v.members, incumbent, incActive)
  }

  predicate SomeUp(v: PoolView) { exists k :: k in v.members && Up(v, k) }

  // u is active and t is not, or u is the live spare and t left out.
  predicate AgileOver(v: PoolView, incumbent: seq<string>, incActive: nat, u: string, t: string) {
    var (out, n) := AgileOf(v, incumbent, incActive);
    && n <= |out| && t in v.members && Up(v, u) && Up(v, t)
    && ((u in out[..n] && t !in out[..n]) || (u in out[n..] && t !in out))
  }

  lemma UpIs(v: PoolView, k: string)
    ensures Up(v, k) <==> IsAlive(Get(v.scores, SlotMemberTag(v.idx, k)))
  {
    hide SlotMemberTag;
  }

  function LiveFor(v: PoolView, k: string): Live
    requires Up(v, k)
  {
    LiveOf(RecordOf(v, k), VerdictOf(v.cv, k), k)
  }

  lemma LiveIs(v: PoolView, k: string)
    requires Up(v, k)
    ensures LiveFor(v, k) == Live(k, Proof(v, k), CostNow(v, k))
    ensures Fails(v, k) <==> Proof(v, k) == CHAIN_BAD
  {
    hide SlotMemberTag;
  }

  // Who the agile pick chooses among: the live members that do not fail the
  // master, or the failing ones when there are no others.
  lemma EligibleIs(v: PoolView, l: Live)
    requires Distinct(v.members)
    ensures l in Eligible(v.scores, v.idx, v.cv, v.members) <==>
            && l.key in v.members && Up(v, l.key) && l == LiveFor(v, l.key)
            && (Fails(v, l.key) ==> forall m :: m in v.members && Up(v, m) ==> Fails(v, m))
  {
    var e := Eligible(v.scores, v.idx, v.cv, v.members);
    EligibleAre(v.scores, v.idx, v.cv, v.members);
    UpIs(v, l.key);
    hide Eligible;
    if l.key in v.members && Up(v, l.key) {
      FailedOnlyAsLastResort(v.scores, v.idx, v.cv, v.members, l.key);
      forall m | m in v.members ensures Up(v, m) <==> IsAlive(Get(v.scores, SlotMemberTag(v.idx, m))) { UpIs(v, m); }
      hide Up, IsAlive, SlotMemberTag, LiveOf;
      assert forall m :: Fails(v, m) <==> VerdictOf(v.cv, m).grade == CHAIN_BAD;
      assert l.key in LiveKeySet(Elems(e)) <==> exists x :: x in e && x.key == l.key;
    }
  }

  // The agile pick as a ranking of the eligible: the active come first, then the spare.
  lemma AgileRanked(v: PoolView, incumbent: seq<string>, incActive: nat, u: string, t: string)
    requires Distinct(v.members) && AgileOver(v, incumbent, incActive, u, t)
    requires LiveFor(v, t) in Eligible(v.scores, v.idx, v.cv, v.members)
    ensures LiveFor(v, u) in Eligible(v.scores, v.idx, v.cv, v.members)
    ensures Cheaper(Holding(incumbent, incActive), LiveFor(v, u), LiveFor(v, t))
  {
    var sorted := RankedEligible(v, incumbent, incActive, t);
    var i := RankOf(v, incumbent, incActive, sorted, u, t);
    assert sorted[i] in Elems(sorted) && LiveFor(v, t) in Elems(sorted);
    EligibleIs(v, sorted[i]);
    var j :| 0 <= j < |sorted| && sorted[j] == LiveFor(v, t);
    hide Cheaper, Eligible, LiveOf, AgileOver;
    assert ByCost(Holding(incumbent, incActive))(sorted[i], sorted[j]);
  }

  // Where in the ranking u sits; t is behind it.
  lemma RankOf(v: PoolView, incumbent: seq<string>, incActive: nat, sorted: seq<Live>, u: string, t: string)
    returns (i: nat)
    requires Distinct(v.members) && AgileOver(v, incumbent, incActive, u, t)
    requires Distinct(sorted) && KeyedApart(Elems(sorted))
    requires var n := Min(AGILE_ACTIVE_MAX, |sorted|);
             AgileOf(v, incumbent, incActive) ==
             (SortKeys(LiveKeys(sorted[..n])) + Spare(sorted, n, IdleMembers(v.scores, v.idx, v.members)), n)
    ensures i < |sorted| && sorted[i].key == u
    ensures forall j :: 0 <= j <= i ==> sorted[j].key != t
  {
    var n := Min(AGILE_ACTIVE_MAX, |sorted|);
    SpareIs(v, sorted, n);
    HeadApart(sorted, n);
    hide AgilePick, SortKeys, Spare, IdleMembers, Up;
    i := RankIn(sorted, n, SortKeys(LiveKeys(sorted[..n])), Spare(sorted, n, IdleMembers(v.scores, v.idx, v.members)),
                u, t);
  }

  lemma HeadApart(sorted: seq<Live>, n: nat)
    requires n <= |sorted| && Distinct(sorted) && KeyedApart(Elems(sorted))
    ensures |SortKeys(LiveKeys(sorted[..n]))| == n
    ensures forall k :: k in SortKeys(LiveKeys(sorted[..n])) <==> exists i :: 0 <= i < n && sorted[i].key == k
  {
    hide SortKeys;
    assert Elems(sorted[..n]) <= Elems(sorted);
    forall k ensures k in SortKeys(LiveKeys(sorted[..n])) <==> exists i :: 0 <= i < n && sorted[i].key == k {
      HeadIs(sorted[..n], k);
      if i :| 0 <= i < n && sorted[i].key == k { assert sorted[..n][i].key == k; }
    }
    HeadIs(sorted[..n], "");
  }

  lemma RankIn(sorted: seq<Live>, n: nat, act: seq<string>, tail: seq<string>, u: string, t: string) returns (i: nat)
    requires n <= |sorted| && |act| == n
    requires forall k :: k in act <==> exists i :: 0 <= i < n && sorted[i].key == k
    requires n < |sorted| ==> tail == [sorted[n].key]
    requires (u in act && t !in act) || (n < |sorted| && u in tail && t !in act + tail)
    ensures i < |sorted| && sorted[i].key == u
    ensures forall j :: 0 <= j <= i ==> sorted[j].key != t
  {
    if u in act && t !in act {
      i :| 0 <= i < n && sorted[i].key == u;
    } else {
      i := n;
      assert forall k :: k in act + tail <==> k in act || k in tail;
      forall j | 0 <= j <= i ensures sorted[j].key != t { assert j < n ==> sorted[j].key in act; }
    }
  }

  // What is recorded of a member that is down says no worse than the other's record.
  predicate NoWorseRecord(v: PoolView, k: string, t: string) {
    var a, b := SlotMemberTag(v.idx, k), SlotMemberTag(v.idx, t);
    b in v.scores ==> a in v.scores && v.scores[a].ok >= v.scores[b].ok
  }

  lemma SpareIs(v: PoolView, sorted: seq<Live>, n: nat)
    requires Distinct(v.members) && n <= |sorted|
    ensures var s := Spare(sorted, n, IdleMembers(v.scores, v.idx, v.members));
            && (n < |sorted| ==> s == [sorted[n].key])
            && (n == |sorted| ==> forall k :: k in s ==>
                  && k in v.members && !Up(v, k)
                  && forall t :: t in v.members && !Up(v, t) ==> NoWorseRecord(v, k, t))
            && (n == |sorted| && s == [] ==> forall t :: t in v.members ==> Up(v, t))
  {
    var idle := IdleMembers(v.scores, v.idx, v.members);
    IdleMembersAre(v.scores, v.idx, v.members);
    IdleApart(v.scores, v.idx, v.members);
    forall t ensures Up(v, t) <==> IsAlive(Get(v.scores, SlotMemberTag(v.idx, t))) { UpIs(v, t); }
    hide Up, IsAlive, IdleMembers, SlotMemberTag;
    forall t | t in v.members && !Up(v, t) ensures Idle(t, Get(v.scores, SlotMemberTag(v.idx, t))) in idle { }
    if n == |sorted| && idle != [] {
      IdleTotal(idle);
      SortSorts(ByRecord(), idle, Elems(idle));
      var ranked := SortBy(ByRecord(), idle);
      assert ranked[0] in Elems(idle);
      forall t | t in v.members && !Up(v, t) ensures NoWorseRecord(v, ranked[0].key, t) {
        var d := Idle(t, Get(v.scores, SlotMemberTag(v.idx, t)));
        assert d in Elems(ranked);
        var j :| 0 <= j < |ranked| && ranked[j] == d;
        assert j > 0 ==> ByRecord()(ranked[0], d);
      }
    }
  }

  lemma IdleTotal(idle: seq<Idle>)
    requires forall d, e :: d in idle && e in idle && d.key == e.key ==> d == e
    ensures TotalOrder(ByRecord(), Elems(idle))
  {
    var dom, less := Elems(idle), ByRecord();
    forall a, b | a in dom && b in dom && less(a, b) ensures !less(b, a) { Text.BeforeAsymmetric(a.key, b.key); }
    forall a, b | a in dom && b in dom && a != b ensures less(a, b) || less(b, a) { Text.BeforeTotal(a.key, b.key); }
    forall a, b, c | a in dom && b in dom && c in dom && less(a, b) && less(b, c) ensures less(a, c) {
      if Text.Before(a.key, b.key) && Text.Before(b.key, c.key) { Text.BeforeTransitive(a.key, b.key, c.key); }
    }
  }

  lemma {:induction false} IdleApart(scores: map<string, NodeScore>, idx: nat, members: seq<string>)
    requires Distinct(members)
    ensures Distinct(IdleMembers(scores, idx, members))
  {
    if members != [] {
      var rest := members[..|members| - 1];
      IdleApart(scores, idx, rest);
      IdleMembersAre(scores, idx, rest);
      assert members[|members| - 1] !in rest;
      hide SlotMemberTag, IsAlive;
    }
  }

  lemma HeadIs(head: seq<Live>, k: string)
    requires Distinct(head) && KeyedApart(Elems(head))
    ensures |SortKeys(LiveKeys(head))| == |head|
    ensures k in SortKeys(LiveKeys(head)) <==> exists i :: 0 <= i < |head| && head[i].key == k
  {
    HeadSorted(head);
    hide SortKeys;
    assert k in SortKeys(LiveKeys(head)) <==> k in LiveKeySet(Elems(head));
  }

  // Placed over a live member, an agile pick's member does not fail the master
  // unless all that are live do, is at least as well proven, and costs less now: of
  // two as well proven, both or neither active before, no more; a newcomer less by
  // the margin.
  lemma AgilePlaced(v: PoolView, incumbent: seq<string>, incActive: nat, u: string, t: string)
    requires Distinct(v.members) && AgileOver(v, incumbent, incActive, u, t)
    ensures u in v.members && (Fails(v, u) ==> forall m :: m in v.members && Up(v, m) ==> Fails(v, m))
    ensures (Fails(v, u) <==> Fails(v, t)) ==> Proof(v, u) <= Proof(v, t)
    ensures var held := Holding(incumbent, incActive);
            Proof(v, u) == Proof(v, t) ==>
              && ((u in held <==> t in held) ==> CostNow(v, u) <= CostNow(v, t))
              && (u !in held && t in held ==> CostNow(v, u) <= CostNow(v, t) / 1.25 - 40.0)
              && (u in held && t !in held ==> CostNow(v, u) / 1.25 - 40.0 <= CostNow(v, t))
  {
    LiveIs(v, u);
    LiveIs(v, t);
    ActiveEligible(v, incumbent, incActive, u, t);
    EligibleIs(v, LiveFor(v, u));
    EligibleIs(v, LiveFor(v, t));
    if LiveFor(v, t) in Eligible(v.scores, v.idx, v.cv, v.members) { AgileRanked(v, incumbent, incActive, u, t); }
    hide Eligible, AgileOver, LiveFor, CostNow, Up, Fails, Proof, Holding;
  }

  lemma ActiveEligible(v: PoolView, incumbent: seq<string>, incActive: nat, u: string, t: string)
    requires Distinct(v.members) && AgileOver(v, incumbent, incActive, u, t)
    ensures LiveFor(v, u) in Eligible(v.scores, v.idx, v.cv, v.members)
  {
    var sorted := RankedEligible(v, incumbent, incActive, t);
    var i := RankOf(v, incumbent, incActive, sorted, u, t);
    assert sorted[i] in Elems(sorted);
    EligibleIs(v, sorted[i]);
  }

  // The eligible members as the pick ranks them.
  lemma RankedEligible(v: PoolView, incumbent: seq<string>, incActive: nat, t: string) returns (sorted: seq<Live>)
    requires Distinct(v.members) && t in v.members && Up(v, t)
    ensures var e, held := Eligible(v.scores, v.idx, v.cv, v.members), Holding(incumbent, incActive);
            sorted == SortBy(ByCost(held), e) && Distinct(sorted) && Elems(sorted) == Elems(e) &&
            KeyedApart(Elems(e)) && Sorted(ByCost(held), sorted)
    ensures var n := Min(AGILE_ACTIVE_MAX, |sorted|);
            AgileOf(v, incumbent, incActive) ==
            (SortKeys(LiveKeys(sorted[..n])) + Spare(sorted, n, IdleMembers(v.scores, v.idx, v.members)), n)
  {
    var e, held := Eligible(v.scores, v.idx, v.cv, v.members), Holding(incumbent, incActive);
    UpIs(v, t);
    EligibleAre(v.scores, v.idx, v.cv, v.members);
    CheaperTotal(held, Elems(e));
    SortSorts(ByCost(held), e, Elems(e));
    AgileOutput(v.scores, v.idx, v.cv, v.members, incumbent, incActive);
    sorted := SortBy(ByCost(held), e);
  }

  // While any member is live, only live ones are active, and one that is not live
  // is the spare only when every live member there is to choose from is active;
  // then no other that is down has a better record.
  lemma AgileSpare(v: PoolView, incumbent: seq<string>, incActive: nat, m: string)
    requires Distinct(v.members) && m in v.members && Up(v, m)
    ensures var (out, n) := AgileOf(v, incumbent, incActive);
            && n <= 4 && n <= |out| <= n + 1 && (forall u :: u in out[..n] ==> u in v.members && Up(v, u))
            && (|out| > n && !Up(v, out[n]) ==>
                  && (m in out[..n] || (Fails(v, m) && exists k :: k in v.members && Up(v, k) && !Fails(v, k)))
                  && forall t :: t in v.members && !Up(v, t) ==> NoWorseRecord(v, out[n], t))
            && (|out| == n ==> forall t :: t in v.members ==> Up(v, t))
  {
    var sorted := RankedEligible(v, incumbent, incActive, m);
    var n := Min(AGILE_ACTIVE_MAX, |sorted|);
    SpareIs(v, sorted, n);
    HeadApart(sorted, n);
    EligibleIs(v, LiveFor(v, m));
    hide SortKeys, Spare, IdleMembers, Eligible, ByCost, NoWorseRecord, AgilePick, Fails, LiveOf, Holding, Up;
    EligibleUp(v, sorted);
    var act, tail := SortKeys(LiveKeys(sorted[..n])), Spare(sorted, n, IdleMembers(v.scores, v.idx, v.members));
    assert (act + tail)[..n] == act;
    assert |tail| > 0 ==> (act + tail)[n] == tail[0];
    HeadHas(sorted, n, act, LiveFor(v, m));
  }

  lemma HeadHas(sorted: seq<Live>, n: nat, act: seq<string>, l: Live)
    requires n <= |sorted| && forall k :: k in act <==> exists i :: 0 <= i < n && sorted[i].key == k
    ensures n == |sorted| && l in Elems(sorted) ==> l.key in act
  {
  }

  lemma EligibleUp(v: PoolView, sorted: seq<Live>)
    requires Distinct(v.members) && Elems(sorted) == Elems(Eligible(v.scores, v.idx, v.cv, v.members))
    ensures forall i :: 0 <= i < |sorted| ==> sorted[i].key in v.members && Up(v, sorted[i].key)
  {
    hide Eligible, Up;
    forall i | 0 <= i < |sorted| ensures sorted[i].key in v.members && Up(v, sorted[i].key) {
      assert sorted[i] in Elems(sorted);
      EligibleIs(v, sorted[i]);
    }
  }

  // With nobody live the agile pick is the stable one.
  lemma AgileFallsBack(v: PoolView, incumbent: seq<string>, incActive: nat)
    requires Distinct(v.members) && forall k :: k in v.members ==> !Up(v, k)
    ensures AgileOf(v, incumbent, incActive) == PickOf(v, incumbent)
  {
    hide Eligible, Chosen, StableRanking.Trimmed, SlotMemberTag, CandOf, Up, IsAlive, Judged;
    forall k | k in v.members ensures !IsAlive(Get(v.scores, SlotMemberTag(v.idx, k))) { UpIs(v, k); }
    AnyLiveIsEligible(v.scores, v.idx, v.cv, v.members);
    SomePolled(v);
    assert (exists k :: k in v.members && IsSampled(Get(v.scores, SlotMemberTag(v.idx, k)))) <==>
           exists k :: k in v.members && Polled(v, k);
  }
}
