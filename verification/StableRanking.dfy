// The stable pick (daemon/nodepick.go): which members a master's balancer
// uses, with hysteresis and with the verdicts of probing the master itself.
module StableRanking {
  import opened Wrappers
  import opened Text
  import opened Sorting
  import opened Tags
  import opened NodeScores
  import X = XrayConfig

  const PICK_COUNT := 3
  const STICKY_RATIO := 1.25
  const STICKY_MS := 40.0

  const CHAIN_GOOD := 0
  const CHAIN_UNKNOWN := 1
  const CHAIN_BAD := 2

  datatype ChainVerdict = ChainVerdict(grade: nat, cost: real)
  type ChainView = map<string, ChainVerdict>

  function VerdictOf(cv: ChainView, key: string): ChainVerdict {
    if key in cv then cv[key] else ChainVerdict(CHAIN_UNKNOWN, 0.0)
  }

  predicate SaneView(cv: ChainView) {
    forall k :: k in cv ==> cv[k].cost >= 0.0
  }

  // A member as the ranking sees it. raw is meaningful for the healthy tier.
  datatype Cand = Cand(key: string, tier: nat, grade: nat, sc: Option<NodeScore>, raw: real)

  function CandOf(scores: map<string, NodeScore>, idx: nat, cv: ChainView, key: string): Cand {
    var sc := Get(scores, SlotMemberTag(idx, key));
    var v := VerdictOf(cv, key);
    var tier := if v.grade == CHAIN_BAD && Tier(sc) != TIER_DEAD then TIER_CHAIN_BAD else Tier(sc);
    var raw := if tier != TIER_HEALTHY then 0.0 else if v.grade == CHAIN_GOOD then v.cost else Cost(sc.value);
    Cand(key, tier, v.grade, sc, raw)
  }

  function Cands(scores: map<string, NodeScore>, idx: nat, cv: ChainView, members: seq<string>): (cs: seq<Cand>)
    ensures |cs| == |members|
    ensures forall i :: 0 <= i < |members| ==> cs[i] == CandOf(scores, idx, cv, members[i])
  {
    seq(|members|, i requires 0 <= i < |members| => CandOf(scores, idx, cv, members[i]))
  }

  predicate Judged(c: Cand) {
    c.sc.Some? && c.sc.value.sampled
  }

  function Sticky(raw: real, held: bool): real {
    if held then raw / STICKY_RATIO - STICKY_MS else raw
  }

  predicate SameRecord(a: Option<NodeScore>, b: Option<NodeScore>) {
    if a.None? || b.None? then a.None? && b.None?
    else a.value.ok == b.value.ok && a.value.hasRTT == b.value.hasRTT && a.value.rttMs == b.value.rttMs
  }

  predicate BetterRecord(a: Option<NodeScore>, b: Option<NodeScore>) {
    if a.None? || b.None? then a.Some?
    else if a.value.ok != b.value.ok then a.value.ok > b.value.ok
    else if a.value.hasRTT != b.value.hasRTT then a.value.hasRTT
    else a.value.rttMs < b.value.rttMs
  }

  // The ranking's comparator, `held` being the keys that are sticky.
  predicate Ahead(held: set<string>, a: Cand, b: Cand) {
    if a.tier != b.tier then a.tier < b.tier
    else if a.grade != b.grade then a.grade < b.grade
    else if a.tier == TIER_HEALTHY && Sticky(a.raw, a.key in held) != Sticky(b.raw, b.key in held) then
      Sticky(a.raw, a.key in held) < Sticky(b.raw, b.key in held)
    else if a.tier != TIER_HEALTHY && a.tier != TIER_UNKNOWN && !SameRecord(a.sc, b.sc) then BetterRecord(a.sc, b.sc)
    else if (a.key in held) != (b.key in held) then a.key in held
    else Before(a.key, b.key)
  }

  function Rank(held: set<string>): (Cand, Cand) -> bool {
    (a, b) => Ahead(held, a, b)
  }

  predicate DistinctKeys(cs: seq<Cand>) {
    forall i, j :: 0 <= i < j < |cs| ==> cs[i].key != cs[j].key
  }

  function Keys(cs: seq<Cand>): (ks: seq<string>)
    ensures |ks| == |cs|
    ensures forall i :: 0 <= i < |cs| ==> ks[i] == cs[i].key
  {
    seq(|cs|, i requires 0 <= i < |cs| => cs[i].key)
  }

  function KeySet(s: set<Cand>): set<string> {
    set c | c in s :: c.key
  }

  function SortKeys(ks: seq<string>): seq<string> {
    SortBy(KeyOrder(), ks)
  }

  function Better(s: set<Cand>): set<Cand> {
    set c | c in s && c.tier < TIER_CHAIN_BAD
  }

  predicate HasChainBad(s: set<Cand>) {
    exists c :: c in s && c.tier == TIER_CHAIN_BAD
  }

  // How many of the ranked top stay in the pick: all of them, unless a member
  // better than chain-failed shares the top with a chain-failed one; then only
  // the better ones.
  function Trimmed(top: seq<Cand>): (n: nat)
    ensures n <= |top|
  {
    var s := Elems(top);
    BetterBound(top);
    if Better(s) != {} && HasChainBad(s) then |Better(s)| else |top|
  }

  lemma BetterBound(top: seq<Cand>)
    ensures |Better(Elems(top))| <= |top|
  {
    CardBound(top);
    var rest := Elems(top) - Better(Elems(top));
    assert Elems(top) == Better(Elems(top)) + rest;
  }

  // The picked members, best first: the ranking's leaders with every incumbent
  // sticky, then ordered with only the previously active sticky.
  function Chosen(cs: seq<Cand>, incumbent: seq<string>): seq<Cand> {
    var ranked := SortBy(Rank(Elems(incumbent)), cs);
    SortBy(Rank(WasActive(incumbent)), ranked[..Min(PICK_COUNT, |cs|)])
  }

  function WasActive(incumbent: seq<string>): set<string> {
    Elems(incumbent[..Min(X.BALANCER_EXPECTED, |incumbent|)])
  }

  // The stable pick: the keys and how many of them are active. ([], 0) is "no data".
  function StablePick(cs: seq<Cand>, incumbent: seq<string>): (seq<string>, nat) {
    if !(exists c :: c in cs && Judged(c)) then ([], 0)
    else
      var top := Chosen(cs, incumbent);
      var kept := Trimmed(top);
      var active := Min(X.BALANCER_EXPECTED, kept);
      (SortKeys(Keys(top[..active])) + Keys(top[active..kept]), active)
  }

  // ---- the ranking is a strict total order ---------------------------------

  lemma AheadAsymmetric(held: set<string>, a: Cand, b: Cand)
    ensures !(Ahead(held, a, b) && Ahead(held, b, a))
  {
    BeforeAsymmetric(a.key, b.key);
  }

  lemma AheadConnected(held: set<string>, a: Cand, b: Cand)
    requires a.key != b.key
    ensures Ahead(held, a, b) || Ahead(held, b, a)
  {
    BeforeTotal(a.key, b.key);
  }

  lemma AheadTransitive(held: set<string>, a: Cand, b: Cand, c: Cand)
    requires Ahead(held, a, b) && Ahead(held, b, c)
    ensures Ahead(held, a, c)
  {
    if Before(a.key, b.key) && Before(b.key, c.key) { BeforeTransitive(a.key, b.key, c.key); }
  }

  ghost predicate Identified(dom: set<Cand>) {
    forall a, b :: a in dom && b in dom && a.key == b.key ==> a == b
  }

  lemma RankTotal(held: set<string>, dom: set<Cand>)
    requires Identified(dom)
    ensures TotalOrder(Rank(held), dom)
  {
    var less := Rank(held);
    forall a, b | a in dom && b in dom && less(a, b) ensures !less(b, a) { AheadAsymmetric(held, a, b); }
    forall a, b | a in dom && b in dom && a != b ensures less(a, b) || less(b, a) { AheadConnected(held, a, b); }
    forall a, b, c | a in dom && b in dom && c in dom && less(a, b) && less(b, c) ensures less(a, c) {
      AheadTransitive(held, a, b, c);
    }
  }

  // Stickiness only ever helps: whoever was ahead stays ahead when it is held
  // and the other is not.
  lemma HoldingKeepsAhead(held: set<string>, held': set<string>, t: Cand, u: Cand)
    requires Ahead(held, t, u) && t.key in held' && u.key !in held'
    requires t.raw >= 0.0 && u.raw >= 0.0
    ensures Ahead(held', t, u)
  {
  }

  // ---- what a pick leads ----------------------------------------------------

  ghost predicate SaneCands(cs: seq<Cand>) {
    DistinctKeys(cs) && forall c :: c in cs ==> c.raw >= 0.0
  }

  lemma CandsIdentified(cs: seq<Cand>)
    requires DistinctKeys(cs)
    ensures Distinct(cs) && Identified(Elems(cs))
  {
  }

  // The set facts behind a pick: round is the leading set of the ranking, and
  // within it the kept and the active members lead in turn.
  lemma ChosenLeads(cs: seq<Cand>, incumbent: seq<string>)
    requires DistinctKeys(cs)
    ensures var n := Min(PICK_COUNT, |cs|);
            var top := Chosen(cs, incumbent);
            && |top| == n && Distinct(top) && Identified(Elems(top)) && |Elems(top)| == n
            && Leads(Rank(Elems(incumbent)), Elems(top), Elems(cs))
            && Sorted(Rank(WasActive(incumbent)), top)
  {
    CandsIdentified(cs);
    var n := Min(PICK_COUNT, |cs|);
    var less := Rank(Elems(incumbent));
    RankTotal(Elems(incumbent), Elems(cs));
    SortSorts(less, cs, Elems(cs));
    var ranked := SortBy(less, cs);
    PrefixLeads(less, ranked, n);
    var lead := ranked[..n];
    assert Distinct(lead);
    assert Elems(lead) <= Elems(cs);
    RankTotal(WasActive(incumbent), Elems(lead));
    SortSorts(Rank(WasActive(incumbent)), lead, Elems(lead));
  }

  lemma RankByTier(held: set<string>, top: seq<Cand>)
    requires Sorted(Rank(held), top)
    ensures forall i, j :: 0 <= i <= j < |top| ==> top[i].tier <= top[j].tier
  {
    forall i, j | 0 <= i <= j < |top| ensures top[i].tier <= top[j].tier {
      if i < j { assert Rank(held)(top[i], top[j]); }
    }
  }

  // What trimming keeps is a prefix no chain-failed member is part of.
  lemma TrimmedPrefix(held: set<string>, top: seq<Cand>)
    requires Sorted(Rank(held), top) && Distinct(top)
    ensures var k := Trimmed(top);
            k < |top| ==>
              && Elems(top[..k]) == Better(Elems(top)) && k > 0
              && (exists c :: c in top && c.tier == TIER_CHAIN_BAD)
              && forall i :: k <= i < |top| ==> top[i].tier >= TIER_CHAIN_BAD
  {
    RankByTier(held, top);
    var k := Trimmed(top);
    if k < |top| {
      var good := Better(Elems(top));
      var less := (a: Cand, b: Cand) => a.tier < b.tier;
      CardDistinct(top[..k]);
      if top[k].tier < TIER_CHAIN_BAD {
        forall c | c in Elems(top[..k + 1]) ensures c in good {
          var i :| 0 <= i < k + 1 && top[i] == c;
          assert top[i].tier <= top[k].tier;
        }
        CardDistinct(top[..k + 1]);
        CardMono(Elems(top[..k + 1]), good);
        assert false;
      }
      forall c | c in good ensures c in Elems(top[..k]) {
        var i :| 0 <= i < |top| && top[i] == c;
        assert i < k;
        assert c == top[..k][i];
      }
      SubsetCard(good, Elems(top[..k]));
    }
  }

  // ---- main results ----------------------------------------------------------

  // While any member ranks better than chain-failed, no picked key, active or
  // spare, is of the chain-failed tier.
  lemma NoChainBadPicked(cs: seq<Cand>, incumbent: seq<string>, c: Cand)
    requires DistinctKeys(cs) && c in cs
    requires c.key in StablePick(cs, incumbent).0
    requires exists b :: b in cs && b.tier < TIER_CHAIN_BAD
    ensures c.tier != TIER_CHAIN_BAD
  {
    assert exists b :: b in cs && Judged(b);
    hide Chosen, Ahead, StablePick;
    ChosenLeads(cs, incumbent);
    var top := Chosen(cs, incumbent);
    var kept := Trimmed(top);
    PickKeys(cs, incumbent);
    assert c.key in KeySet(Elems(top[..kept]));
    var d :| d in Elems(top[..kept]) && d.key == c.key;
    assert d in Elems(top) && d in Elems(cs);
    assert d == c by { CandsIdentified(cs); assert c in Elems(cs); }
    var b :| b in cs && b.tier < TIER_CHAIN_BAD;
    assert b in Elems(cs);
    if c.tier == TIER_CHAIN_BAD {
      LeadTier(Elems(incumbent), Elems(top), Elems(cs), c, b);
      assert b in Better(Elems(top));
      TrimmedClean(WasActive(incumbent), top, c);
      assert false;
    }
  }

  // A member outside a ranking's leading set is of no better tier than one inside.
  lemma LeadTier(held: set<string>, lead: set<Cand>, dom: set<Cand>, w: Cand, u: Cand)
    requires Leads(Rank(held), lead, dom) && w in lead && u in dom
    ensures u !in lead ==> w.tier <= u.tier
  {
    if u !in lead { assert Rank(held)(w, u); }
  }

  lemma TrimmedClean(held: set<string>, top: seq<Cand>, c: Cand)
    requires Sorted(Rank(held), top) && Distinct(top) && Better(Elems(top)) != {}
    ensures c in Elems(top[..Trimmed(top)]) ==> c.tier != TIER_CHAIN_BAD
  {
    if c in Elems(top[..Trimmed(top)]) && c.tier == TIER_CHAIN_BAD {
      assert c in Elems(top);
      CardDistinct(top);
      StrictCard(Better(Elems(top)), Elems(top));
      TrimmedPrefix(held, top);
      assert false;
    }
  }

  // The keys of a pick are the keys of the kept prefix, the active ones first.
  lemma PickKeys(cs: seq<Cand>, incumbent: seq<string>)
    requires DistinctKeys(cs) && exists c :: c in cs && Judged(c)
    ensures var (out, active) := StablePick(cs, incumbent);
            var top := Chosen(cs, incumbent);
            var kept := Trimmed(top);
            && |out| == kept && active == Min(X.BALANCER_EXPECTED, kept)
            && Elems(out) == KeySet(Elems(top[..kept]))
            && Elems(out[..active]) == KeySet(Elems(top[..active]))
            && Sorted(KeyOrder(), out[..active])
  {
    ChosenLeads(cs, incumbent);
    var top := Chosen(cs, incumbent);
    var kept := Trimmed(top);
    var active := Min(X.BALANCER_EXPECTED, kept);
    var head, tail := Keys(top[..active]), Keys(top[active..kept]);
    hide Chosen, Ahead, Trimmed;
    KeyOrderTotal(Elems(head));
    assert Distinct(head);
    SortSorts(KeyOrder(), head, Elems(head));
    var out := SortKeys(head) + tail;
    assert out[..active] == SortKeys(head);
    KeysElems(top[..active]);
    KeysElems(top[active..kept]);
    assert top[..kept] == top[..active] + top[active..kept];
    ElemsConcat(top[..active], top[active..kept]);
    ElemsConcat(SortKeys(head), tail);
  }

  lemma KeysElems(cs: seq<Cand>)
    ensures Elems(Keys(cs)) == KeySet(Elems(cs))
  {
    forall k | k in KeySet(Elems(cs)) ensures k in Keys(cs) {
      var c :| c in Elems(cs) && c.key == k;
      var i :| 0 <= i < |cs| && cs[i] == c;
      assert Keys(cs)[i] == k;
    }
  }

  // When the pick was trimmed, it holds every member better than chain-failed.
  lemma BetterAllKept(cs: seq<Cand>, incumbent: seq<string>, u: Cand)
    requires DistinctKeys(cs) && u in cs && u.tier < TIER_CHAIN_BAD
    requires Trimmed(Chosen(cs, incumbent)) < |Chosen(cs, incumbent)|
    ensures u in Elems(Chosen(cs, incumbent)[..Trimmed(Chosen(cs, incumbent))])
  {
    var top := Chosen(cs, incumbent);
    ChosenLeads(cs, incumbent);
    TrimmedPrefix(WasActive(incumbent), top);
    var w :| w in top && w.tier == TIER_CHAIN_BAD;
    assert w in Elems(top) && u in Elems(cs);
    LeadTier(Elems(incumbent), Elems(top), Elems(cs), w, u);
    assert u in Better(Elems(top));
  }

  // Round two: the kept members lead the ranking in which they are the incumbents.
  lemma KeptLeadsAgain(cs: seq<Cand>, incumbent: seq<string>, held: set<string>)
    requires SaneCands(cs)
    requires held == KeySet(Elems(Chosen(cs, incumbent)[..Trimmed(Chosen(cs, incumbent))]))
    ensures Leads(Rank(held), Elems(Chosen(cs, incumbent)[..Trimmed(Chosen(cs, incumbent))]), Elems(cs))
  {
    var top := Chosen(cs, incumbent);
    var k := Trimmed(top);
    var kept := Elems(top[..k]);
    CandsIdentified(cs);
    ChosenLeads(cs, incumbent);
    assert kept <= Elems(top);
    assert top[..|top|] == top;
    forall t, u | t in kept && u in Elems(cs) && u !in kept ensures Ahead(held, t, u) {
      assert t.key in held;
      if u in Elems(top) {
        assert k < |top|;
        TrimmedPrefix(WasActive(incumbent), top);
        if u.tier < TIER_CHAIN_BAD { BetterAllKept(cs, incumbent, u); assert false; }
        assert t in Better(Elems(top));
      } else {
        assert Rank(Elems(incumbent))(t, u);
        assert u.key !in held;
        HoldingKeepsAhead(Elems(incumbent), held, t, u);
      }
    }
  }

  // Round two ranks the kept members first, both overall and within the new top.
  lemma SameKept(cs: seq<Cand>, incumbent: seq<string>, out: seq<string>)
    requires SaneCands(cs) && out == StablePick(cs, incumbent).0
    requires exists c :: c in cs && Judged(c)
    ensures var top, top' := Chosen(cs, incumbent), Chosen(cs, out);
            var k := Trimmed(top);
            && |top'| == |top|
            && Elems(out) == KeySet(Elems(top[..k]))
            && WasActive(out) == KeySet(Elems(top[..Min(X.BALANCER_EXPECTED, k)]))
            && Leads(Rank(WasActive(out)), Elems(top[..k]), Elems(top'))
            && Elems(top'[..k]) == Elems(top[..k])
  {
    hide Chosen, Ahead, StablePick, Trimmed;
    var top, top' := Chosen(cs, incumbent), Chosen(cs, out);
    var k := Trimmed(top);
    var kept, held := Elems(top[..k]), Elems(out);
    CandsIdentified(cs);
    PickKeys(cs, incumbent);
    ChosenLeads(cs, incumbent);
    ChosenLeads(cs, out);
    KeptLeadsAgain(cs, incumbent, held);
    RankTotal(held, Elems(cs));
    CardDistinct(top[..k]);
    LeadsNested(Rank(held), kept, Elems(top'), Elems(cs));
    LeftoversWorse(cs, incumbent, kept, Elems(top'));
    TierLeads(WasActive(out), kept, Elems(top'));
    PrefixLeads(Rank(WasActive(out)), top', k);
    RankTotal(WasActive(out), Elems(top'));
    LeadsUnique(Rank(WasActive(out)), Elems(top'[..k]), kept, Elems(top'));
  }

  lemma TierLeads(held: set<string>, kept: set<Cand>, dom: set<Cand>)
    requires kept <= dom
    requires forall t, u :: t in kept && u in dom && u !in kept ==> t.tier < u.tier
    ensures Leads(Rank(held), kept, dom)
  {
  }

  // Round two keeps the same set, trims it the same way and activates the same members.
  lemma SameRound(cs: seq<Cand>, incumbent: seq<string>, out: seq<string>)
    requires SaneCands(cs) && out == StablePick(cs, incumbent).0
    requires exists c :: c in cs && Judged(c)
    ensures var top, top' := Chosen(cs, incumbent), Chosen(cs, out);
            var k := Trimmed(top);
            var a := Min(X.BALANCER_EXPECTED, k);
            && |top'| == |top| && Trimmed(top') == k
            && Elems(top'[..k]) == Elems(top[..k])
            && Elems(top'[..a]) == Elems(top[..a])
  {
    hide Chosen, Ahead, StablePick, Trimmed;
    var top, top' := Chosen(cs, incumbent), Chosen(cs, out);
    var k := Trimmed(top);
    var a := Min(X.BALANCER_EXPECTED, k);
    var less := Rank(WasActive(out));
    SameKept(cs, incumbent, out);
    ChosenLeads(cs, incumbent);
    ChosenLeads(cs, out);
    forall c | c in top ensures c.raw >= 0.0 { assert c in Elems(top) && c in Elems(cs); }
    ActiveLead(top, k, a, WasActive(incumbent), WasActive(out), Elems(top'));
    PrefixLeads(less, top', a);
    CardDistinct(top[..a]);
    RankTotal(WasActive(out), Elems(top'));
    LeadsUnique(less, Elems(top'[..a]), Elems(top[..a]), Elems(top'));
    SameTrim(cs, incumbent, Elems(out), top, top');
  }

  // Whatever round two picks beyond the kept members is of a worse tier than any kept.
  lemma LeftoversWorse(cs: seq<Cand>, incumbent: seq<string>, kept: set<Cand>, top': set<Cand>)
    requires DistinctKeys(cs)
    requires kept == Elems(Chosen(cs, incumbent)[..Trimmed(Chosen(cs, incumbent))])
    requires kept <= top' && top' <= Elems(cs) && |top'| == |Chosen(cs, incumbent)|
    ensures forall t, u :: t in kept && u in top' && u !in kept ==> t.tier < u.tier
    ensures Trimmed(Chosen(cs, incumbent)) == |top'| ==> top' == kept
  {
    var top := Chosen(cs, incumbent);
    ChosenLeads(cs, incumbent);
    CardDistinct(top[..Trimmed(top)]);
    if Trimmed(top) == |top| {
      SubsetCard(kept, top');
    } else {
      TrimmedPrefix(WasActive(incumbent), top);
      forall t, u | t in kept && u in top' && u !in kept ensures t.tier < u.tier {
        if u.tier < TIER_CHAIN_BAD { BetterAllKept(cs, incumbent, u); assert false; }
        assert t in Better(Elems(top));
      }
    }
  }

  lemma ActiveLead(top: seq<Cand>, k: nat, a: nat, before: set<string>, wasActive: set<string>, top': set<Cand>)
    requires a <= k <= |top| && Sorted(Rank(before), top) && Distinct(top) && Identified(top')
    requires wasActive == KeySet(Elems(top[..a])) && Elems(top[..k]) <= top'
    requires Leads(Rank(wasActive), Elems(top[..k]), top')
    requires forall c :: c in top ==> c.raw >= 0.0
    ensures Leads(Rank(wasActive), Elems(top[..a]), top')
  {
    var kept, act := Elems(top[..k]), Elems(top[..a]);
    assert top[..k][..a] == top[..a];
    assert act <= kept;
    forall t, u | t in act && u in top' && u !in act ensures Ahead(wasActive, t, u) {
      if u in kept {
        var i :| 0 <= i < a && top[i] == t;
        var j :| 0 <= j < k && top[..k][j] == u;
        PrefixElems(top, a);
        assert i < j;
        assert Rank(before)(top[i], top[j]);
        assert u.key !in wasActive;
        HoldingKeepsAhead(before, wasActive, t, u);
      } else {
        assert Rank(wasActive)(t, u);
      }
    }
  }

  lemma SameTrim(cs: seq<Cand>, incumbent: seq<string>, held: set<string>, top: seq<Cand>, top': seq<Cand>)
    requires SaneCands(cs) && top == Chosen(cs, incumbent)
    requires held == KeySet(Elems(top[..Trimmed(top)]))
    requires |top'| == |top| && Distinct(top') && Leads(Rank(held), Elems(top'), Elems(cs))
    requires Elems(top[..Trimmed(top)]) <= Elems(top')
    ensures Trimmed(top') == Trimmed(top)
  {
    hide Chosen, Ahead;
    var k := Trimmed(top);
    ChosenLeads(cs, incumbent);
    CardDistinct(top');
    LeftoversWorse(cs, incumbent, Elems(top[..k]), Elems(top'));
    if k == |top| {
      assert top[..k] == top;
    } else {
      assert DistinctKeys(cs);
      hide SaneCands, Rank, Leads;
      BetterSame(cs, incumbent, top, top');
      ChainBadSame(cs, incumbent, held, top, top');
      CardDistinct(top[..k]);
      TrimmedPrefix(WasActive(incumbent), top);
    }
  }

  lemma BetterSame(cs: seq<Cand>, incumbent: seq<string>, top: seq<Cand>, top': seq<Cand>)
    requires DistinctKeys(cs) && top == Chosen(cs, incumbent) && Trimmed(top) < |top|
    requires Elems(top') <= Elems(cs) && Elems(top[..Trimmed(top)]) <= Elems(top')
    ensures Better(Elems(top')) == Elems(top[..Trimmed(top)])
  {
    hide Chosen, Ahead, Trimmed;
    ChosenLeads(cs, incumbent);
    TrimmedPrefix(WasActive(incumbent), top);
    forall u | u in Better(Elems(top')) ensures u in Elems(top[..Trimmed(top)]) { BetterAllKept(cs, incumbent, u); }
  }

  lemma ChainBadSame(cs: seq<Cand>, incumbent: seq<string>, held: set<string>, top: seq<Cand>, top': seq<Cand>)
    requires DistinctKeys(cs) && top == Chosen(cs, incumbent) && Trimmed(top) < |top|
    requires |top'| == |top| && Distinct(top') && Leads(Rank(held), Elems(top'), Elems(cs))
    requires Elems(top[..Trimmed(top)]) <= Elems(top')
    ensures HasChainBad(Elems(top'))
  {
    hide Chosen, Ahead, Trimmed, DistinctKeys;
    var k := Trimmed(top);
    assert Elems(top') <= Elems(cs);
    ChosenLeads(cs, incumbent);
    TrimmedPrefix(WasActive(incumbent), top);
    BetterSame(cs, incumbent, top, top');
    var w :| w in top && w.tier == TIER_CHAIN_BAD;
    assert w in Elems(cs) by { assert w in Elems(top); }
    if w !in Elems(top') {
      CardDistinct(top[..k]);
      CardDistinct(top');
      var v := Extra(Elems(top[..k]), Elems(top'));
      LeadTier(held, Elems(top'), Elems(cs), v, w);
      assert v.tier == TIER_CHAIN_BAD;
    }
  }

  lemma Extra<T>(a: set<T>, b: set<T>) returns (x: T)
    requires a <= b && |a| < |b|
    ensures x in b && x !in a
  {
    assert b != a;
    x :| x in b && x !in a;
  }

  // Hysteresis cannot oscillate: feeding a pick back as the incumbents returns
  // the same keys in the same order with the same active count.
  lemma StablePickFixedPoint(cs: seq<Cand>, incumbent: seq<string>)
    requires SaneCands(cs)
    ensures StablePick(cs, StablePick(cs, incumbent).0) == StablePick(cs, incumbent)
  {
    if exists c :: c in cs && Judged(c) {
      var out := StablePick(cs, incumbent).0;
      var top, top' := Chosen(cs, incumbent), Chosen(cs, out);
      var k := Trimmed(top);
      var a := Min(X.BALANCER_EXPECTED, k);
      hide Chosen, Ahead, Trimmed, SortKeys;
      SameRound(cs, incumbent, out);
      ChosenLeads(cs, incumbent);
      ChosenLeads(cs, out);
      SameTail(top, top', a, k);
      SameHead(top[..a], top'[..a]);
    }
  }

  lemma SameTail(top: seq<Cand>, top': seq<Cand>, a: nat, k: nat)
    requires Distinct(top) && Distinct(top') && a <= k <= |top| && |top| == |top'| && k <= a + 1
    requires Elems(top[..k]) == Elems(top'[..k]) && Elems(top[..a]) == Elems(top'[..a])
    ensures top[a..k] == top'[a..k]
  {
    if a < k {
      PrefixElems(top, k);
      PrefixElems(top', k);
      assert top[a] in Elems(top'[..k]);
      var j :| 0 <= j < k && top'[j] == top[a];
      PrefixElems(top', a);
      assert top[a] !in Elems(top[..a]);
    }
  }

  lemma SameHead(head: seq<Cand>, head': seq<Cand>)
    requires Elems(head) == Elems(head') && Distinct(head) && Distinct(head') && Identified(Elems(head))
    ensures SortKeys(Keys(head)) == SortKeys(Keys(head'))
  {
    KeysElems(head);
    KeysElems(head');
    DistinctKeysOf(head);
    DistinctKeysOf(head');
    KeyOrderTotal(Elems(Keys(head)));
    SortSorts(KeyOrder(), Keys(head), Elems(Keys(head)));
    SortSorts(KeyOrder(), Keys(head'), Elems(Keys(head)));
    SortedUnique(KeyOrder(), SortKeys(Keys(head)), SortKeys(Keys(head')));
  }

  lemma DistinctKeysOf(head: seq<Cand>)
    requires Distinct(head) && Identified(Elems(head))
    ensures Distinct(Keys(head))
  {
    forall i, j | 0 <= i < j < |head| ensures head[i].key != head[j].key {
      assert head[i] in Elems(head) && head[j] in Elems(head);
    }
  }

  // An incumbent is displaced only by a newcomer that beats it by the margin.
  lemma DisplacedOnlyIfBeaten(cs: seq<Cand>, incumbent: seq<string>, t: Cand, u: Cand)
    requires DistinctKeys(cs) && t in cs && u in Chosen(cs, incumbent) && t !in Chosen(cs, incumbent)
    requires t.key in incumbent && u.key !in incumbent
    requires t.tier == u.tier == TIER_HEALTHY && t.grade == u.grade
    ensures u.raw < t.raw / STICKY_RATIO - STICKY_MS
  {
    hide Chosen;
    ChosenLeads(cs, incumbent);
    assert u in Elems(Chosen(cs, incumbent)) && t in Elems(cs);
    assert Rank(Elems(incumbent))(u, t);
  }

  // Recorded scores and verdicts only ever produce candidates the fixed point covers.
  lemma RecordedCandsSane(scores: map<string, NodeScore>, idx: nat, cv: ChainView, members: seq<string>)
    requires Distinct(members) && SaneView(cv)
    requires forall t :: t in scores ==> SaneScore(scores[t])
    ensures SaneCands(Cands(scores, idx, cv, members))
  {
    var cs := Cands(scores, idx, cv, members);
    forall c | c in cs ensures c.raw >= 0.0 {
      var i :| 0 <= i < |cs| && cs[i] == c;
      if c.tier == TIER_HEALTHY { CostNonNegative(c.sc.value); }
    }
  }

  // ---- the picker's own steps -----------------------------------------------

  // How far the ranked top is cut, as the two loops compute it.
  method CutChainFailed(top: seq<Cand>) returns (active: nat, n: nat)
    requires top != [] && |top| <= PICK_COUNT
    requires Distinct(top) && forall i, j :: 0 <= i <= j < |top| ==> top[i].tier <= top[j].tier
    ensures n == Trimmed(top) && active == Min(X.BALANCER_EXPECTED, n)
  {
    n := |top|;
    active := X.BALANCER_EXPECTED;
    if active > n { active := n; }
    while active > 1 && top[0].tier != TIER_CHAIN_BAD && top[active - 1].tier == TIER_CHAIN_BAD
      invariant 1 <= active <= n
      invariant active < Min(X.BALANCER_EXPECTED, n) ==>
                  top[0].tier != TIER_CHAIN_BAD && top[active].tier == TIER_CHAIN_BAD
    {
      active := active - 1;
    }
    if top[0].tier != TIER_CHAIN_BAD {
      var i := active;
      while i < n && n == |top|
        invariant active <= i <= n <= |top|
        invariant n == |top| ==> forall j :: active <= j < i ==> top[j].tier != TIER_CHAIN_BAD
        invariant n < |top| ==> i == n && top[n].tier == TIER_CHAIN_BAD && n >= active
        invariant n < |top| ==> forall j :: active <= j < n ==> top[j].tier != TIER_CHAIN_BAD
        decreases |top| - i + (if n == |top| then 1 else 0)
      {
        if top[i].tier == TIER_CHAIN_BAD { n := i; } else { i := i + 1; }
      }
    }
    CutIsTrim(top, active, n);
  }

  lemma CutIsTrim(top: seq<Cand>, active: nat, n: nat)
    requires top != [] && |top| <= PICK_COUNT && 1 <= active <= n <= |top|
    requires Distinct(top) && forall i, j :: 0 <= i <= j < |top| ==> top[i].tier <= top[j].tier
    requires active == Min(X.BALANCER_EXPECTED, |top|) ||
             (active == 1 && top[0].tier != TIER_CHAIN_BAD && top[1].tier == TIER_CHAIN_BAD)
    requires active == Min(X.BALANCER_EXPECTED, |top|) ==>
               top[0].tier == TIER_CHAIN_BAD || active == 1 || top[active - 1].tier != TIER_CHAIN_BAD
    requires top[0].tier == TIER_CHAIN_BAD ==> n == |top|
    requires top[0].tier != TIER_CHAIN_BAD ==>
               if n < |top| then top[n].tier == TIER_CHAIN_BAD && forall j :: active <= j < n ==>
                     top[j].tier != TIER_CHAIN_BAD
               else forall j :: active <= j < n ==> top[j].tier != TIER_CHAIN_BAD
    ensures n == Trimmed(top) && active == Min(X.BALANCER_EXPECTED, n)
  {
    var good := Better(Elems(top));
    assert top[0] in Elems(top);
    if top[0].tier >= TIER_CHAIN_BAD {
      forall c | c in Elems(top) ensures c.tier >= TIER_CHAIN_BAD { var i :| 0 <= i < |top| && top[i] == c; }
      assert good == {};
    } else if n < |top| {
      assert top[n] in Elems(top) && HasChainBad(Elems(top));
      PrefixElems(top, n);
      forall c | c in good ensures c in Elems(top[..n]) { var i :| 0 <= i < |top| && top[i] == c; assert i < n; }
      forall c | c in Elems(top[..n]) ensures c in good { var i :| 0 <= i < n && top[i] == c; }
      assert good == Elems(top[..n]);
      CardDistinct(top[..n]);
    } else {
      assert forall i :: 0 <= i < |top| ==> top[i].tier != TIER_CHAIN_BAD;
      assert !HasChainBad(Elems(top));
    }
  }

  method Pick(p: NodePicker?, idx: nat, members: seq<string>, incumbent: seq<string>, cv: ChainView)
    returns (out: seq<string>, active: nat)
    requires Distinct(members)
    ensures (out, active) == if p == null then ([], 0) else StablePick(Cands(p.scores, idx, cv, members), incumbent)
  {
    if p == null || members == [] {
      return [], 0;
    }
    var cs: seq<Cand>, scored := [], false;
    for i := 0 to |members|
      invariant cs == Cands(p.scores, idx, cv, members[..i])
      invariant scored <==> exists c :: c in cs && Judged(c)
    {
      var c := CandOf(p.scores, idx, cv, members[i]);
      assert members[..i + 1] == members[..i] + [members[i]];
      cs := cs + [c];
      scored := scored || Judged(c);
    }
    assert members[..|members|] == members;
    if !scored { return [], 0; }
    var ranked := SortBy(Rank(Elems(incumbent)), cs);
    var top := SortBy(Rank(WasActive(incumbent)), ranked[..Min(PICK_COUNT, |cs|)]);
    ChosenLeads(cs, incumbent);
    RankByTier(WasActive(incumbent), top);
    var n;
    active, n := CutChainFailed(top);
    out := SortKeys(Keys(top[..active])) + Keys(top[active..n]);
  }
}
