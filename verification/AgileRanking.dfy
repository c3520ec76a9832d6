// The agile pick (daemon/nodepick.go): every live member, cheapest first, up to
// a cap, then one spare.
module AgileRanking {
  import opened Wrappers
  import opened Text
  import opened Sorting
  import opened Tags
  import opened NodeScores
  import opened StableRanking
  import X = XrayConfig

  const AGILE_ACTIVE_MAX := 4

  // A live member: its chain grade and its cost before stickiness.
  datatype Live = Live(key: string, grade: nat, base: real)

  // A member that cannot be active now, with whatever is on record for it.
  datatype Idle = Idle(key: string, sc: Option<NodeScore>)

  predicate IsSampled(sc: Option<NodeScore>) {
    sc.Some? && sc.value.sampled
  }

  predicate IsAlive(sc: Option<NodeScore>) {
    IsSampled(sc) && sc.value.alive
  }

  function LiveOf(sc: NodeScore, v: ChainVerdict, key: string): Live {
    Live(key, v.grade,
         if v.grade == CHAIN_GOOD then v.cost else if sc.lastRTT == 0.0 then sc.rttMs else sc.lastRTT)
  }

  // The live members, in member order: those that failed the master's chain
  // (failed) or the others.
  function LiveMembers(scores: map<string, NodeScore>, idx: nat, cv: ChainView, members: seq<string>,
                       failed: bool): seq<Live>
  {
    if members == [] then []
    else
      var key := members[|members| - 1];
      var sc := Get(scores, SlotMemberTag(idx, key));
      var v := VerdictOf(cv, key);
      LiveMembers(scores, idx, cv, members[..|members| - 1], failed) +
      if IsAlive(sc) && (v.grade == CHAIN_BAD) == failed then [LiveOf(sc.value, v, key)] else []
  }

  function IdleMembers(scores: map<string, NodeScore>, idx: nat, members: seq<string>): seq<Idle> {
    if members == [] then []
    else
      var key := members[|members| - 1];
      var sc := Get(scores, SlotMemberTag(idx, key));
      IdleMembers(scores, idx, members[..|members| - 1]) + if IsAlive(sc) then [] else [Idle(key, sc)]
  }

  function Eligible(scores: map<string, NodeScore>, idx: nat, cv: ChainView, members: seq<string>): seq<Live> {
    var sound := LiveMembers(scores, idx, cv, members, false);
    if sound != [] then sound else LiveMembers(scores, idx, cv, members, true)
  }

  predicate Cheaper(held: set<string>, a: Live, b: Live) {
    if a.grade != b.grade then a.grade < b.grade
    else
      var x, y := Sticky(a.base, a.key in held), Sticky(b.base, b.key in held);
      if x != y then x < y else Before(a.key, b.key)
  }

  function ByCost(held: set<string>): (Live, Live) -> bool {
    (a, b) => Cheaper(held, a, b)
  }

  predicate IdleAhead(a: Idle, b: Idle) {
    if a.sc.Some? != b.sc.Some? then a.sc.Some?
    else if a.sc.Some? && a.sc.value.ok != b.sc.value.ok then a.sc.value.ok > b.sc.value.ok
    else Before(a.key, b.key)
  }

  function ByRecord(): (Idle, Idle) -> bool {
    (a, b) => IdleAhead(a, b)
  }

  function LiveKeys(ls: seq<Live>): (ks: seq<string>)
    ensures |ks| == |ls|
    ensures forall i :: 0 <= i < |ls| ==> ks[i] == ls[i].key
  {
    seq(|ls|, i requires 0 <= i < |ls| => ls[i].key)
  }

  function LiveKeySet(s: set<Live>): set<string> {
    set l | l in s :: l.key
  }

  function Spare(sorted: seq<Live>, n: nat, idle: seq<Idle>): (s: seq<string>)
    ensures |s| <= 1
  {
    if n < |sorted| then [sorted[n].key]
    else if idle != [] then [SortBy(ByRecord(), idle)[0].key]
    else []
  }

  function AgilePick(scores: map<string, NodeScore>, idx: nat, cv: ChainView, members: seq<string>,
                     incumbent: seq<string>, incActive: nat): (seq<string>, nat)
  {
    if !(exists k :: k in members && IsSampled(Get(scores, SlotMemberTag(idx, k)))) then ([], 0)
    else
      var eligible := Eligible(scores, idx, cv, members);
      if eligible == [] then StablePick(Cands(scores, idx, cv, members), incumbent)
      else
        var sorted := SortBy(ByCost(Holding(incumbent, incActive)), eligible);
        var n := Min(AGILE_ACTIVE_MAX, |sorted|);
        (SortKeys(LiveKeys(sorted[..n])) + Spare(sorted, n, IdleMembers(scores, idx, members)), n)
  }

  // ---- order facts -----------------------------------------------------------

  ghost predicate KeyedApart(dom: set<Live>) {
    forall a, b :: a in dom && b in dom && a.key == b.key ==> a == b
  }

  lemma CheaperTotal(held: set<string>, dom: set<Live>)
    requires KeyedApart(dom)
    ensures TotalOrder(ByCost(held), dom)
  {
    var less := ByCost(held);
    forall a, b | a in dom && b in dom && less(a, b) ensures !less(b, a) { BeforeAsymmetric(a.key, b.key); }
    forall a, b | a in dom && b in dom && a != b ensures less(a, b) || less(b, a) { BeforeTotal(a.key, b.key); }
    forall a, b, c | a in dom && b in dom && c in dom && less(a, b) && less(b, c) ensures less(a, c) {
      if Before(a.key, b.key) && Before(b.key, c.key) { BeforeTransitive(a.key, b.key, c.key); }
    }
  }

  lemma HoldingKeepsCheaper(held: set<string>, held': set<string>, t: Live, u: Live)
    requires Cheaper(held, t, u) && t.key in held' && u.key !in held'
    requires t.base >= 0.0 && u.base >= 0.0
    ensures Cheaper(held', t, u)
  {
  }

  // ---- what the eligible members are ---------------------------------------------

  ghost predicate LiveMember(scores: map<string, NodeScore>, idx: nat, cv: ChainView, failed: bool, l: Live) {
    && IsAlive(Get(scores, SlotMemberTag(idx, l.key)))
    && (VerdictOf(cv, l.key).grade == CHAIN_BAD) == failed
    && l == LiveOf(scores[SlotMemberTag(idx, l.key)], VerdictOf(cv, l.key), l.key)
  }

  lemma {:induction false} LiveElems(scores: map<string, NodeScore>, idx: nat, cv: ChainView, members: seq<string>,
                                     failed: bool)
    ensures forall l :: l in LiveMembers(scores, idx, cv, members, failed) <==>
              l.key in members && LiveMember(scores, idx, cv, failed, l)
  {
    if members != [] {
      hide VerdictOf, SlotMemberTag;
      var rest := members[..|members| - 1];
      LiveElems(scores, idx, cv, rest, failed);
      assert members == rest + [members[|members| - 1]];
    }
  }

  lemma {:induction false} LiveApart(scores: map<string, NodeScore>, idx: nat, cv: ChainView, members: seq<string>,
                                     failed: bool)
    requires Distinct(members)
    ensures Distinct(LiveKeys(LiveMembers(scores, idx, cv, members, failed)))
  {
    if members != [] {
      var rest := members[..|members| - 1];
      LiveApart(scores, idx, cv, rest, failed);
      LiveElems(scores, idx, cv, rest, failed);
      assert members == rest + [members[|members| - 1]];
      assert members[|members| - 1] !in rest;
      hide VerdictOf, SlotMemberTag, IsAlive, LiveMember;
      var before, ks := LiveMembers(scores, idx, cv, rest, failed),
          LiveKeys(LiveMembers(scores, idx, cv, members, failed));
      forall i | 0 <= i < |before| ensures before[i].key in rest { assert before[i] in before; }
      forall i, j | 0 <= i < j < |ks| ensures ks[i] != ks[j] {
        assert ks[i] == LiveKeys(before)[i];
      }
    }
  }

  lemma LiveMembersAre(scores: map<string, NodeScore>, idx: nat, cv: ChainView, members: seq<string>, failed: bool)
    requires Distinct(members)
    ensures var ls := LiveMembers(scores, idx, cv, members, failed);
            && Distinct(LiveKeys(ls)) && Distinct(ls) && KeyedApart(Elems(ls))
            && forall l :: l in ls <==> l.key in members && LiveMember(scores, idx, cv, failed, l)
  {
    hide LiveMembers, LiveMember;
    LiveElems(scores, idx, cv, members, failed);
    LiveApart(scores, idx, cv, members, failed);
    var ls := LiveMembers(scores, idx, cv, members, failed);
    forall i, j | 0 <= i < j < |ls| ensures ls[i] != ls[j] { assert LiveKeys(ls)[i] != LiveKeys(ls)[j]; }
  }

  lemma {:induction false} IdleMembersAre(scores: map<string, NodeScore>, idx: nat, members: seq<string>)
    ensures forall d :: d in IdleMembers(scores, idx, members) <==>
              d.key in members && d.sc == Get(scores, SlotMemberTag(idx, d.key)) && !IsAlive(d.sc)
  {
    if members != [] {
      IdleMembersAre(scores, idx, members[..|members| - 1]);
      assert members == members[..|members| - 1] + [members[|members| - 1]];
    }
  }

  lemma EligibleAre(scores: map<string, NodeScore>, idx: nat, cv: ChainView, members: seq<string>)
    requires Distinct(members)
    ensures var e := Eligible(scores, idx, cv, members);
            && Distinct(e) && KeyedApart(Elems(e))
            && forall l :: l in e ==>
                 && l.key in members && IsAlive(Get(scores, SlotMemberTag(idx, l.key)))
                 && l == LiveOf(scores[SlotMemberTag(idx, l.key)], VerdictOf(cv, l.key), l.key)
  {
    LiveMembersAre(scores, idx, cv, members, false);
    LiveMembersAre(scores, idx, cv, members, true);
  }

  // Chain-failed members are eligible exactly when no other member is live.
  lemma FailedOnlyAsLastResort(scores: map<string, NodeScore>, idx: nat, cv: ChainView, members: seq<string>, k: string)
    requires Distinct(members) && k in members && IsAlive(Get(scores, SlotMemberTag(idx, k)))
    ensures k in LiveKeySet(Elems(Eligible(scores, idx, cv, members))) <==>
            (VerdictOf(cv, k).grade == CHAIN_BAD ==>
               forall m :: m in members && IsAlive(Get(scores, SlotMemberTag(idx, m))) ==>
                     VerdictOf(cv, m).grade == CHAIN_BAD)
  {
    LiveMembersAre(scores, idx, cv, members, false);
    LiveMembersAre(scores, idx, cv, members, true);
    var sound := LiveMembers(scores, idx, cv, members, false);
    var e := Eligible(scores, idx, cv, members);
    var l := LiveOf(scores[SlotMemberTag(idx, k)], VerdictOf(cv, k), k);
    assert VerdictOf(cv, k).grade != CHAIN_BAD ==> l in sound && l in Elems(e);
    if sound != [] {
      assert sound[0] in sound;
    } else {
      forall m | m in members && IsAlive(Get(scores, SlotMemberTag(idx, m)))
        ensures VerdictOf(cv, m).grade == CHAIN_BAD
      {
        var l' := LiveOf(scores[SlotMemberTag(idx, m)], VerdictOf(cv, m), m);
        assert VerdictOf(cv, m).grade != CHAIN_BAD ==> l' in sound;
      }
      assert l in Elems(e);
    }
  }

  lemma AnyLiveIsEligible(scores: map<string, NodeScore>, idx: nat, cv: ChainView, members: seq<string>)
    requires Distinct(members)
    ensures Eligible(scores, idx, cv, members) != [] <==>
            exists k :: k in members && IsAlive(Get(scores, SlotMemberTag(idx, k)))
  {
    EligibleAre(scores, idx, cv, members);
    var e := Eligible(scores, idx, cv, members);
    if e != [] { assert e[0] in e; }
    if k :| k in members && IsAlive(Get(scores, SlotMemberTag(idx, k))) {
      FailedOnlyAsLastResort(scores, idx, cv, members, k);
      forall m | m in members && IsAlive(Get(scores, SlotMemberTag(idx, m)))
        ensures VerdictOf(cv, m).grade != CHAIN_BAD ==> m in LiveKeySet(Elems(e))
      {
        FailedOnlyAsLastResort(scores, idx, cv, members, m);
      }
      assert LiveKeySet(Elems(e)) != {};
    }
  }

  // ---- main results ------------------------------------------------------------------

  // The members that held their place before this pick.
  function Holding(incumbent: seq<string>, incActive: nat): set<string> {
    Elems(incumbent[..Min(incActive, |incumbent|)])
  }

  // With any member live, the active members are exactly the cheapest eligible
  // ones, at most four, and the spare is not one of them.
  lemma AgileActiveExact(scores: map<string, NodeScore>, idx: nat, cv: ChainView, members: seq<string>,
                         incumbent: seq<string>, incActive: nat) returns (lead: set<Live>)
    requires Distinct(members) && exists k :: k in members && IsAlive(Get(scores, SlotMemberTag(idx, k)))
    ensures var e := Eligible(scores, idx, cv, members);
            var (out, n) := AgilePick(scores, idx, cv, members, incumbent, incActive);
            && n == Min(AGILE_ACTIVE_MAX, |e|) && n <= |out| <= n + 1
            && |lead| == n && Leads(ByCost(Holding(incumbent, incActive)), lead, Elems(e))
            && Elems(out[..n]) == LiveKeySet(lead) && Sorted(KeyOrder(), out[..n])
            && (|out| > n ==> out[n] !in out[..n])
  {
    hide Cheaper, LiveMembers, IdleMembers, Spare, SortKeys, ByCost, Eligible, AgilePick;
    var e := Eligible(scores, idx, cv, members);
    var held := Holding(incumbent, incActive);
    EligibleAre(scores, idx, cv, members);
    CheaperTotal(held, Elems(e));
    SortSorts(ByCost(held), e, Elems(e));
    var sorted := SortBy(ByCost(held), e);
    var n := Min(AGILE_ACTIVE_MAX, |sorted|);
    PrefixLeads(ByCost(held), sorted, n);
    lead := Elems(sorted[..n]);
    AgileOutput(scores, idx, cv, members, incumbent, incActive);
    HeadSorted(sorted[..n]);
    SpareIsNotActive(scores, idx, members, sorted, n, e);
    var head, tail := SortKeys(LiveKeys(sorted[..n])), Spare(sorted, n, IdleMembers(scores, idx, members));
    var out := head + tail;
    assert out[..n] == head;
    if tail != [] {
      assert out[n] == tail[0] && tail[0] in tail;
      assert out[n] !in Elems(head);
    }
  }

  lemma AgileOutput(scores: map<string, NodeScore>, idx: nat, cv: ChainView, members: seq<string>,
                    incumbent: seq<string>, incActive: nat)
    requires Distinct(members) && exists k :: k in members && IsAlive(Get(scores, SlotMemberTag(idx, k)))
    ensures var sorted := SortBy(ByCost(Holding(incumbent, incActive)), Eligible(scores, idx, cv, members));
            var n := Min(AGILE_ACTIVE_MAX, |sorted|);
            AgilePick(scores, idx, cv, members, incumbent, incActive) ==
            (SortKeys(LiveKeys(sorted[..n])) + Spare(sorted, n, IdleMembers(scores, idx, members)), n)
  {
    hide Eligible, SortKeys, IdleMembers, Spare;
    AnyLiveIsEligible(scores, idx, cv, members);
    var k :| k in members && IsAlive(Get(scores, SlotMemberTag(idx, k)));
    assert IsSampled(Get(scores, SlotMemberTag(idx, k)));
  }

  lemma HeadSorted(head: seq<Live>)
    requires Distinct(head) && KeyedApart(Elems(head))
    ensures Elems(SortKeys(LiveKeys(head))) == LiveKeySet(Elems(head))
    ensures Sorted(KeyOrder(), SortKeys(LiveKeys(head))) && |SortKeys(LiveKeys(head))| == |head|
  {
    var ks := LiveKeys(head);
    forall i, j | 0 <= i < j < |ks| ensures ks[i] != ks[j] { assert head[i] in Elems(head) && head[j] in Elems(head); }
    KeyOrderTotal(Elems(ks));
    SortSorts(KeyOrder(), ks, Elems(ks));
    forall k | k in LiveKeySet(Elems(head)) ensures k in ks {
      var l :| l in Elems(head) && l.key == k;
      var i :| 0 <= i < |head| && head[i] == l;
      assert ks[i] == k;
    }
  }

  lemma SpareIsNotActive(scores: map<string, NodeScore>, idx: nat, members: seq<string>, sorted: seq<Live>, n: nat,
                         e: seq<Live>)
    requires n <= |sorted| && Distinct(sorted) && KeyedApart(Elems(sorted)) && Elems(sorted) == Elems(e)
    requires forall l :: l in e ==> IsAlive(Get(scores, SlotMemberTag(idx, l.key)))
    ensures forall k :: k in Spare(sorted, n, IdleMembers(scores, idx, members)) ==>
              k !in LiveKeySet(Elems(sorted[..n]))
  {
    var idle := IdleMembers(scores, idx, members);
    var s := Spare(sorted, n, idle);
    if n < |sorted| {
      forall l | l in Elems(sorted[..n]) ensures l.key != sorted[n].key {
        assert l in Elems(sorted) && sorted[n] in Elems(sorted) && l != sorted[n];
      }
    } else if idle != [] {
      SortKeeps(ByRecord(), idle);
      SameElems(SortBy(ByRecord(), idle), idle);
      var d := SortBy(ByRecord(), idle)[0];
      assert d in Elems(idle);
      IdleMembersAre(scores, idx, members);
      forall l | l in Elems(sorted[..n]) ensures l.key != d.key { assert l in Elems(e); }
    }
  }

  // Under unchanged scores the active set is settled after one more pick.
  lemma AgileActiveStable(scores: map<string, NodeScore>, idx: nat, cv: ChainView, members: seq<string>,
                          incumbent: seq<string>, incActive: nat)
    requires Distinct(members) && SaneView(cv)
    requires forall t :: t in scores ==> SaneScore(scores[t])
    requires exists k :: k in members && IsAlive(Get(scores, SlotMemberTag(idx, k)))
    ensures var (out, n) := AgilePick(scores, idx, cv, members, incumbent, incActive);
            var (out', n') := AgilePick(scores, idx, cv, members, out, X.ActiveCount(n, out));
            n' == n && n <= |out| && n <= |out'| && out'[..n] == out[..n]
  {
    hide Cheaper, LiveMembers, AgilePick, Eligible;
    var e := Eligible(scores, idx, cv, members);
    var (out, n) := AgilePick(scores, idx, cv, members, incumbent, incActive);
    var (out', n') := AgilePick(scores, idx, cv, members, out, X.ActiveCount(n, out));
    var lead := AgileActiveExact(scores, idx, cv, members, incumbent, incActive);
    var lead' := AgileActiveExact(scores, idx, cv, members, out, X.ActiveCount(n, out));
    var held, held' := Holding(incumbent, incActive), Holding(out, X.ActiveCount(n, out));
    EligibleAre(scores, idx, cv, members);
    AnyLiveIsEligible(scores, idx, cv, members);
    assert held' == LiveKeySet(lead);
    HeldLead(e, lead, held, held', scores, idx, cv);
    CheaperTotal(held', Elems(e));
    LeadsUnique(ByCost(held'), lead, lead', Elems(e));
    SortedHead(out[..n], out'[..n]);
  }

  // The cheapest members stay the cheapest once they are the sticky ones.
  lemma BaseSane(scores: map<string, NodeScore>, idx: nat, cv: ChainView, l: Live)
    requires SaneView(cv) && forall t :: t in scores ==> SaneScore(scores[t])
    requires IsAlive(Get(scores, SlotMemberTag(idx, l.key)))
    requires l == LiveOf(scores[SlotMemberTag(idx, l.key)], VerdictOf(cv, l.key), l.key)
    ensures l.base >= 0.0
  {
    hide SlotMemberTag;
  }

  lemma HeldLead(e: seq<Live>, lead: set<Live>, held: set<string>, held': set<string>,
                 scores: map<string, NodeScore>, idx: nat, cv: ChainView)
    requires Leads(ByCost(held), lead, Elems(e)) && held' == LiveKeySet(lead) && KeyedApart(Elems(e))
    requires SaneView(cv) && forall t :: t in scores ==> SaneScore(scores[t])
    requires forall l :: l in e ==>
               && IsAlive(Get(scores, SlotMemberTag(idx, l.key)))
               && l == LiveOf(scores[SlotMemberTag(idx, l.key)], VerdictOf(cv, l.key), l.key)
    ensures Leads(ByCost(held'), lead, Elems(e))
  {
    hide LiveOf, VerdictOf, SlotMemberTag, IsAlive, SaneView, SaneScore;
    forall l | l in e ensures l.base >= 0.0 { BaseSane(scores, idx, cv, l); }
    forall t, u | t in lead && u in Elems(e) && u !in lead ensures Cheaper(held', t, u) {
      assert ByCost(held)(t, u);
      assert t in Elems(e) && t in e && u in e;
      assert u.key !in held';
      HoldingKeepsCheaper(held, held', t, u);
    }
  }

  lemma SortedHead(a: seq<string>, b: seq<string>)
    requires Elems(a) == Elems(b) && Sorted(KeyOrder(), a) && Sorted(KeyOrder(), b)
    ensures a == b
  {
    KeyOrderTotal(Elems(a));
    SortedDistinct(a);
    SortedDistinct(b);
    SortedUnique(KeyOrder(), a, b);
  }

  // ... and the whole pick, spare included, after two.
  lemma AgilePickSettles(scores: map<string, NodeScore>, idx: nat, cv: ChainView, members: seq<string>,
                         incumbent: seq<string>, incActive: nat)
    requires Distinct(members) && SaneView(cv)
    requires forall t :: t in scores ==> SaneScore(scores[t])
    ensures var p1 := AgilePick(scores, idx, cv, members, incumbent, incActive);
            var p2 := AgilePick(scores, idx, cv, members, p1.0, X.ActiveCount(p1.1, p1.0));
            AgilePick(scores, idx, cv, members, p2.0, X.ActiveCount(p2.1, p2.0)) == p2
  {
    var p1 := AgilePick(scores, idx, cv, members, incumbent, incActive);
    var p2 := AgilePick(scores, idx, cv, members, p1.0, X.ActiveCount(p1.1, p1.0));
    if Eligible(scores, idx, cv, members) == [] {
      RecordedCandsSane(scores, idx, cv, members);
      StablePickFixedPoint(Cands(scores, idx, cv, members), incumbent);
    } else {
      AnyLiveIsEligible(scores, idx, cv, members);
      AgileActiveStable(scores, idx, cv, members, incumbent, incActive);
      var lead := AgileActiveExact(scores, idx, cv, members, incumbent, incActive);
      var lead' := AgileActiveExact(scores, idx, cv, members, p1.0, X.ActiveCount(p1.1, p1.0));
      var n := p1.1;
      assert X.ActiveCount(p1.1, p1.0) == n == X.ActiveCount(p2.1, p2.0);
      assert p1.0[..n] == p2.0[..n];
    }
  }

  // ---- the picker's own steps ---------------------------------------------------------

  // One pass over the members: the live ones, the live ones that failed the
  // master's chain, the rest, and whether anything was sampled at all.
  method SplitMembers(scores: map<string, NodeScore>, idx: nat, members: seq<string>, cv: ChainView)
    returns (alive: seq<Live>, aliveBad: seq<Live>, rest: seq<Idle>, scored: bool)
    ensures alive == LiveMembers(scores, idx, cv, members, false)
    ensures aliveBad == LiveMembers(scores, idx, cv, members, true)
    ensures rest == IdleMembers(scores, idx, members)
    ensures scored <==> exists k :: k in members && IsSampled(Get(scores, SlotMemberTag(idx, k)))
  {
    hide LiveOf, SlotMemberTag;
    alive, aliveBad, rest, scored := [], [], [], false;
    for i := 0 to |members|
      invariant alive == LiveMembers(scores, idx, cv, members[..i], false)
      invariant aliveBad == LiveMembers(scores, idx, cv, members[..i], true)
      invariant rest == IdleMembers(scores, idx, members[..i])
      invariant scored <==> exists k :: k in members[..i] && IsSampled(Get(scores, SlotMemberTag(idx, k)))
    {
      var key := members[i];
      var sc, v := Get(scores, SlotMemberTag(idx, key)), VerdictOf(cv, key);
      assert members[..i + 1] == members[..i] + [key];
      assert members[..i + 1][..i] == members[..i];
      scored := scored || IsSampled(sc);
      if !IsAlive(sc) {
        rest := rest + [Idle(key, sc)];
      } else if v.grade == CHAIN_BAD {
        aliveBad := aliveBad + [LiveOf(sc.value, v, key)];
      } else {
        alive := alive + [LiveOf(sc.value, v, key)];
      }
    }
    assert members[..|members|] == members;
  }

  method PickAgile(p: NodePicker?, idx: nat, members: seq<string>, incumbent: seq<string>, incActive: nat,
                   cv: ChainView)
    returns (out: seq<string>, n: nat)
    requires Distinct(members)
    ensures (out, n) == if p == null then ([], 0) else AgilePick(p.scores, idx, cv, members, incumbent, incActive)
  {
    hide LiveMembers, IdleMembers, IsSampled;
    if p == null || members == [] { return [], 0; }
    var alive, aliveBad, rest, scored := SplitMembers(p.scores, idx, members, cv);
    if !scored { return [], 0; }
    if alive == [] { alive := aliveBad; }
    if alive == [] {
      out, n := Pick(p, idx, members, incumbent, cv);
      return;
    }
    alive := SortBy(ByCost(Holding(incumbent, incActive)), alive);
    n := Min(|alive|, AGILE_ACTIVE_MAX);
    out := SortKeys(LiveKeys(alive[..n]));
    if |alive| > n {
      out := out + [alive[n].key];
    } else if rest != [] {
      out := out + [SortBy(ByRecord(), rest)[0].key];
    } else {
      assert out == out + [];
    }
  }
}
