// Whom the stable pick prefers, read from the recorded samples and verdicts
// alone (daemon/nodepick.go: tier, cost, pickStableLocked).
module Preference {
  import opened Wrappers
  import opened Sorting
  import opened Tags
  import opened NodeScores
  import opened StableRanking
  import X = XrayConfig

  // ---- what the records say of a member ----------------------------------------

  // A pool as a pick reads it.
  datatype PoolView = PoolView(scores: map<string, NodeScore>, idx: nat, cv: ChainView, members: seq<string>)

  predicate Sane(v: PoolView) {
    Distinct(v.members) && SaneView(v.cv) && forall t :: t in v.scores ==> SaneScore(v.scores[t])
  }

  // The record of a member that was pinged in the last poll that counted.
  predicate Polled(v: PoolView, k: string) {
    SlotMemberTag(v.idx, k) in v.scores && v.scores[SlotMemberTag(v.idx, k)].sampled
  }

  function RecordOf(v: PoolView, k: string): NodeScore
    requires Polled(v, k)
  {
    v.scores[SlotMemberTag(v.idx, k)]
  }

  predicate Dead(v: PoolView, k: string) { Polled(v, k) && !RecordOf(v, k).alive }

  predicate Fails(v: PoolView, k: string) { k in v.cv && v.cv[k].grade == CHAIN_BAD }

  predicate Proven(v: PoolView, k: string) { k in v.cv && v.cv[k].grade == CHAIN_GOOD }

  // Up, four in five pings answered, none lost in the last poll, a round trip
  // measured, and not known to fail the master.
  predicate Healthy(v: PoolView, k: string) {
    && Polled(v, k) && !Fails(v, k)
    && var r := RecordOf(v, k); r.alive && r.clean && r.ok >= 0.8 && r.hasRTT
  }

  // Healthy before unknown before suspect before failing the master before dead.
  function Standing(v: PoolView, k: string): nat {
    if Healthy(v, k) then 0
    else if Dead(v, k) then 4
    else if Fails(v, k) then 3
    else if Polled(v, k) then 2
    else 1
  }

  // Proven to carry the master before untried.
  function Proof(v: PoolView, k: string): nat { if k in v.cv then v.cv[k].grade else 1 }

  // What a healthy member costs: its chain latency where proven, else its ping's
  // round trip, paid again for every answer missing.
  function PathCost(v: PoolView, k: string): real
    requires Healthy(v, k)
  {
    var r := RecordOf(v, k);
    assert r.ok * r.ok > 0.0;
    if Proven(v, k) then v.cv[k].cost else r.rttMs / (r.ok * r.ok)
  }

  // ---- who is placed over whom ---------------------------------------------------

  function PickOf(v: PoolView, incumbent: seq<string>): (seq<string>, nat) {
    StablePick(Cands(v.scores, v.idx, v.cv, v.members), incumbent)
  }

  // u is picked and t is left out, or u is active and t the spare; held is whom the
  // choice favours for having been there already.
  predicate PlacedOver(v: PoolView, incumbent: seq<string>, held: set<string>, u: string, t: string) {
    var (out, active) := PickOf(v, incumbent);
    && active <= |out| && u in v.members && t in v.members
    && ((held == Elems(incumbent) && u in out && t !in out) ||
        (held == WasActive(incumbent) && u in out[..active] && t in out[active..]))
  }

  function CandFor(v: PoolView, k: string): Cand { CandOf(v.scores, v.idx, v.cv, k) }

  lemma CandThere(v: PoolView, k: string)
    requires k in v.members
    ensures CandFor(v, k) in Cands(v.scores, v.idx, v.cv, v.members)
  {
    hide CandOf;
    var i :| 0 <= i < |v.members| && v.members[i] == k;
    assert Cands(v.scores, v.idx, v.cv, v.members)[i] == CandFor(v, k);
  }

  lemma KeysDistinct(v: PoolView)
    requires Distinct(v.members)
    ensures DistinctKeys(Cands(v.scores, v.idx, v.cv, v.members))
  {
    hide Tier, Cost;
  }

  // Either way u ranks before t.
  lemma PlacedAhead(v: PoolView, incumbent: seq<string>, held: set<string>, u: string, t: string)
    requires Distinct(v.members) && PlacedOver(v, incumbent, held, u, t)
    ensures Ahead(held, CandFor(v, u), CandFor(v, t))
  {
    var cs := Cands(v.scores, v.idx, v.cv, v.members);
    var (out, active) := PickOf(v, incumbent);
    KeysDistinct(v);
    CandThere(v, u);
    CandThere(v, t);
    hide Ahead, Chosen, Trimmed, CandOf;
    if u in out && t !in out && held == Elems(incumbent) {
      PickedAhead(cs, incumbent, CandFor(v, u), CandFor(v, t));
    } else {
      ActiveAhead(cs, incumbent, CandFor(v, u), CandFor(v, t));
    }
  }

  // A member's key is picked, or active, exactly when it is among the kept, or active.
  lemma PickedIs(cs: seq<Cand>, incumbent: seq<string>, c: Cand)
    requires DistinctKeys(cs) && c in cs && exists b :: b in cs && Judged(b)
    ensures var (out, active) := StablePick(cs, incumbent);
            var top := Chosen(cs, incumbent);
            && active <= Trimmed(top) && |out| == Trimmed(top) && active <= |out|
            && (c.key in out <==> c in Elems(top[..Trimmed(top)]))
            && (c.key in out[..active] <==> c in Elems(top[..active]))
  {
    PickKeys(cs, incumbent);
    ChosenLeads(cs, incumbent);
    CandsIdentified(cs);
    hide Chosen, Trimmed, StablePick, Ahead, DistinctKeys;
    var (out, active) := StablePick(cs, incumbent);
    var top := Chosen(cs, incumbent);
    assert c in Elems(cs) && Elems(top) <= Elems(cs);
    KeyIn(top[..Trimmed(top)], Elems(cs), c);
    KeyIn(top[..active], Elems(cs), c);
    assert forall k :: k in out <==> k in Elems(out);
    assert forall k :: k in out[..active] <==> k in Elems(out[..active]);
  }

  lemma KeyIn(part: seq<Cand>, dom: set<Cand>, c: Cand)
    requires Identified(dom) && Elems(part) <= dom && c in dom
    ensures c.key in KeySet(Elems(part)) <==> c in Elems(part)
  {
  }

  lemma PickedAhead(cs: seq<Cand>, incumbent: seq<string>, u: Cand, t: Cand)
    requires DistinctKeys(cs) && u in cs && t in cs
    requires u.key in StablePick(cs, incumbent).0 && t.key !in StablePick(cs, incumbent).0
    ensures Ahead(Elems(incumbent), u, t)
  {
    PickedIs(cs, incumbent, u);
    PickedIs(cs, incumbent, t);
    ChosenLeads(cs, incumbent);
    hide StablePick;
    KeptAhead(cs, incumbent, u, t);
  }

  lemma KeptAhead(cs: seq<Cand>, incumbent: seq<string>, u: Cand, t: Cand)
    requires DistinctKeys(cs) && u in cs && t in cs
    requires var top := Chosen(cs, incumbent);
             u in Elems(top[..Trimmed(top)]) && t !in Elems(top[..Trimmed(top)])
    ensures Ahead(Elems(incumbent), u, t)
  {
    hide Chosen, Ahead;
    var top := Chosen(cs, incumbent);
    ChosenLeads(cs, incumbent);
    assert u in Elems(top) && t in Elems(cs);
    if t !in Elems(top) {
      assert Rank(Elems(incumbent))(u, t);
    } else {
      hide Trimmed;
      assert top[..|top|] == top;
      TrimmedPrefix(WasActive(incumbent), top);
      if t.tier < TIER_CHAIN_BAD { BetterAllKept(cs, incumbent, t); }
      assert u in Better(Elems(top));
      BetterTier(Elems(incumbent), u, t);
    }
  }

  lemma BetterTier(held: set<string>, u: Cand, t: Cand)
    ensures u.tier < t.tier ==> Ahead(held, u, t)
  {
  }

  lemma ActiveAhead(cs: seq<Cand>, incumbent: seq<string>, u: Cand, t: Cand)
    requires DistinctKeys(cs) && u in cs && t in cs
    requires var (out, active) := StablePick(cs, incumbent);
             active <= |out| && u.key in out[..active] && t.key in out[active..]
    ensures Ahead(WasActive(incumbent), u, t)
  {
    var (out, active) := StablePick(cs, incumbent);
    PickedIs(cs, incumbent, u);
    PickedIs(cs, incumbent, t);
    SpareNotActive(cs, incumbent, t);
    ChosenLeads(cs, incumbent);
    hide StablePick, Chosen, Trimmed, Ahead;
    var top := Chosen(cs, incumbent);
    assert out[active..] <= out[active..];
    assert t in Elems(top[..Trimmed(top)]) by { assert t.key in out; }
    var i :| 0 <= i < active && top[i] == u;
    var j :| 0 <= j < Trimmed(top) && top[j] == t;
    Among(top, active, j);
    assert Rank(WasActive(incumbent))(top[i], top[j]);
  }

  lemma Among(top: seq<Cand>, n: nat, j: nat)
    requires j < |top| && n <= |top|
    ensures j < n ==> top[j] in Elems(top[..n])
  {
  }

  lemma SpareNotActive(cs: seq<Cand>, incumbent: seq<string>, t: Cand)
    requires DistinctKeys(cs) && t in cs
    requires var (out, active) := StablePick(cs, incumbent); active <= |out| && t.key in out[active..]
    ensures var (_, active) := StablePick(cs, incumbent);
            active <= |Chosen(cs, incumbent)| && t !in Elems(Chosen(cs, incumbent)[..active])
  {
    hide Chosen, Ahead;
    var (out, active) := StablePick(cs, incumbent);
    var top := Chosen(cs, incumbent);
    assert out[active..] == Keys(top[active..Trimmed(top)]);
    ChosenLeads(cs, incumbent);
    CandsIdentified(cs);
    hide Trimmed, StablePick, DistinctKeys;
    assert t in Elems(cs);
    TailApart(top, active, Trimmed(top), Elems(cs), t);
  }

  lemma TailApart(top: seq<Cand>, active: nat, kept: nat, dom: set<Cand>, t: Cand)
    requires active <= kept <= |top| && Distinct(top) && Identified(dom) && Elems(top) <= dom && t in dom
    requires t.key in Keys(top[active..kept])
    ensures t !in Elems(top[..active])
  {
    var j :| 0 <= j < kept - active && Keys(top[active..kept])[j] == t.key;
    assert top[active + j] in Elems(top);
    assert top[active + j] == t;
    PrefixElems(top, active);
  }

  lemma CandIs(v: PoolView, k: string)
    ensures var c := CandFor(v, k);
            && c.key == k && c.tier == Standing(v, k) && c.grade == Proof(v, k)
            && (Healthy(v, k) ==> c.raw == PathCost(v, k))
            && (c.tier == 4 || c.tier == 2 ==> c.sc == Some(RecordOf(v, k)))
            && c.sc == Get(v.scores, SlotMemberTag(v.idx, k))
  {
    hide SlotMemberTag;
  }

  // ---- main results ----------------------------------------------------------------

  // Nobody is left out, or left the spare, for a member of worse standing, nor for
  // an untried one where it is proven itself.
  lemma PlacedByStanding(v: PoolView, incumbent: seq<string>, held: set<string>, u: string, t: string)
    requires Distinct(v.members) && PlacedOver(v, incumbent, held, u, t)
    ensures Standing(v, u) <= Standing(v, t)
    ensures Standing(v, u) == Standing(v, t) ==> Proof(v, u) <= Proof(v, t)
  {
    PlacedAhead(v, incumbent, held, u, t);
    CandIs(v, u);
    CandIs(v, t);
    hide CandOf, Standing, PlacedOver;
  }

  // One already there makes way for a newcomer exactly when that beats it by the
  // margin: a fifth off its cost, and forty milliseconds.
  lemma PlacedByMargin(v: PoolView, incumbent: seq<string>, held: set<string>, u: string, t: string)
    requires Distinct(v.members) && PlacedOver(v, incumbent, held, u, t)
    requires Healthy(v, u) && Healthy(v, t) && Proof(v, u) == Proof(v, t)
    ensures u in held && t !in held ==> PathCost(v, t) >= PathCost(v, u) / 1.25 - 40.0
    ensures u !in held && t in held ==> PathCost(v, u) < PathCost(v, t) / 1.25 - 40.0
  {
    PlacedAhead(v, incumbent, held, u, t);
    CandIs(v, u);
    CandIs(v, t);
    hide CandOf, PlacedOver, Healthy, PathCost;
  }

  // Unless it was there already and the other was not, a healthy member costs no
  // more than one as well proven that it is placed over.
  lemma PlacedByCost(v: PoolView, incumbent: seq<string>, held: set<string>, u: string, t: string)
    requires Sane(v) && PlacedOver(v, incumbent, held, u, t)
    requires Healthy(v, u) && Healthy(v, t) && Proof(v, u) == Proof(v, t) && (u in held ==> t in held)
    ensures PathCost(v, u) <= PathCost(v, t)
  {
    CostPositive(v, t);
    PlacedAhead(v, incumbent, held, u, t);
    CandIs(v, u);
    CandIs(v, t);
    hide CandOf, PlacedOver, Healthy, PathCost, Sane;
  }

  lemma CostPositive(v: PoolView, k: string)
    requires Sane(v) && Healthy(v, k)
    ensures PathCost(v, k) >= 0.0
  {
    CostNonNegative(RecordOf(v, k));
  }

  // So one that answers at least as often and at least as fast as an untried one
  // placed over it, and is favoured no less, is its equal in both.
  lemma PlacedBySpeed(v: PoolView, incumbent: seq<string>, held: set<string>, u: string, t: string)
    requires Sane(v) && PlacedOver(v, incumbent, held, u, t)
    requires Healthy(v, u) && Healthy(v, t) && Proof(v, u) == Proof(v, t) && !Proven(v, u)
    requires u in held ==> t in held
    requires RecordOf(v, t).ok >= RecordOf(v, u).ok && RecordOf(v, t).rttMs <= RecordOf(v, u).rttMs
    ensures RecordOf(v, t).ok == RecordOf(v, u).ok && RecordOf(v, t).rttMs == RecordOf(v, u).rttMs
  {
    var a, b := RecordOf(v, u), RecordOf(v, t);
    PlacedByCost(v, incumbent, held, u, t);
    assert !Proven(v, t);
    CostIs(v, u);
    CostIs(v, t);
    hide *;
    CostOrder(PathCost(v, u), a.ok, a.rttMs, PathCost(v, t), b.ok, b.rttMs);
  }

  lemma CostIs(v: PoolView, k: string)
    requires Sane(v) && Healthy(v, k) && !Proven(v, k)
    ensures Priced(PathCost(v, k), RecordOf(v, k).ok, RecordOf(v, k).rttMs)
  {
  }

  // Among members that are not healthy the record decides: more answers first,
  // then any round trip, then the faster one.
  lemma PlacedByRecord(v: PoolView, incumbent: seq<string>, held: set<string>, u: string, t: string)
    requires Distinct(v.members) && PlacedOver(v, incumbent, held, u, t)
    requires Standing(v, u) == Standing(v, t) >= 2 && Proof(v, u) == Proof(v, t)
    requires SlotMemberTag(v.idx, t) in v.scores
    ensures SlotMemberTag(v.idx, u) in v.scores
    ensures var a, b := v.scores[SlotMemberTag(v.idx, u)], v.scores[SlotMemberTag(v.idx, t)];
            && a.ok >= b.ok
            && (a.ok == b.ok && b.hasRTT ==> a.hasRTT)
            && (a.ok == b.ok && a.hasRTT == b.hasRTT ==> a.rttMs <= b.rttMs)
  {
    PlacedAhead(v, incumbent, held, u, t);
    CandIs(v, u);
    CandIs(v, t);
    hide CandOf, PlacedOver, Standing, SlotMemberTag;
  }

  // There is a pick exactly when some member was polled; at most two are active,
  // and without a member that fails the master nobody is cut: it holds three, or all.
  lemma PickSize(v: PoolView, incumbent: seq<string>)
    requires Distinct(v.members)
    ensures var (out, active) := PickOf(v, incumbent);
            && (out != [] <==> exists k :: k in v.members && Polled(v, k))
            && active == Min(2, |out|) && |out| <= 3
            && ((forall k :: k in v.members ==> !Fails(v, k)) && out != [] ==> |out| == Min(3, |v.members|))
  {
    var cs := Cands(v.scores, v.idx, v.cv, v.members);
    KeysDistinct(v);
    SomePolled(v);
    hide Chosen, CandOf, Polled;
    if exists c :: c in cs && Judged(c) {
      PickKeys(cs, incumbent);
      ChosenLeads(cs, incumbent);
      hide StablePick;
      if forall k :: k in v.members ==> !Fails(v, k) { NoneCut(v, Chosen(cs, incumbent)); }
      hide Fails;
      KeepsSome(cs, incumbent);
    }
  }

  lemma KeepsSome(cs: seq<Cand>, incumbent: seq<string>)
    requires DistinctKeys(cs) && cs != []
    ensures Trimmed(Chosen(cs, incumbent)) > 0
  {
    ChosenLeads(cs, incumbent);
    hide Chosen, Ahead;
    assert Better(Elems(Chosen(cs, incumbent))) != {} ==> |Better(Elems(Chosen(cs, incumbent)))| > 0;
  }

  lemma SomePolled(v: PoolView)
    ensures (exists c :: c in Cands(v.scores, v.idx, v.cv, v.members) && Judged(c)) <==>
            exists k :: k in v.members && Polled(v, k)
  {
    var cs := Cands(v.scores, v.idx, v.cv, v.members);
    forall k | k in v.members && Polled(v, k) ensures exists c :: c in cs && Judged(c) {
      CandThere(v, k);
      CandIs(v, k);
      assert Judged(CandFor(v, k));
    }
    forall c | c in cs && Judged(c) ensures exists k :: k in v.members && Polled(v, k) {
      var i :| 0 <= i < |cs| && cs[i] == c;
      CandIs(v, v.members[i]);
      assert Polled(v, v.members[i]);
    }
  }

  lemma NoneCut(v: PoolView, top: seq<Cand>)
    requires Elems(top) <= Elems(Cands(v.scores, v.idx, v.cv, v.members))
    requires forall k :: k in v.members ==> !Fails(v, k)
    ensures Trimmed(top) == |top|
  {
    var cs := Cands(v.scores, v.idx, v.cv, v.members);
    forall c | c in Elems(top) ensures c.tier != TIER_CHAIN_BAD {
      assert c in Elems(cs);
      var j :| 0 <= j < |cs| && cs[j] == c;
      CandIs(v, v.members[j]);
    }
  }
}
