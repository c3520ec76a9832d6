// A slot's picks (daemon/nodepick.go, pickFor and pickSlot): the pool's own
// ranking and one per master, each kept sticky by its own last pick.
module PickSlots {
  import opened Wrappers
  import opened Sorting
  import opened NodeScores
  import opened StableRanking
  import opened AgileRanking
  import opened ChainProbe
  import X = XrayConfig

  datatype Strategy = Stable | Agile | Manual

  datatype SlotConfig = SlotConfig(masters: seq<string>, index: nat, members: seq<string>, strategy: Strategy,
                                   pinned: seq<string>)

  type MasterPick = X.MasterPick

  // Everything a slot's balancers are built from.
  datatype Picks = Picks(pool: MasterPick, masters: map<string, MasterPick>)

  function PickOf(ps: Picks, master: string): MasterPick {
    if master in ps.masters then ps.masters[master] else ps.pool
  }

  function PickFor(scores: map<string, NodeScore>, sl: SlotConfig, prev: MasterPick, cv: ChainView): MasterPick {
    match sl.strategy
    case Manual => X.MasterPick(sl.pinned, |sl.pinned|)
    case Agile =>
      var (out, n) := AgilePick(scores, sl.index, cv, sl.members, prev.picked, X.ActiveCount(prev.active, prev.picked));
      X.MasterPick(out, n)
    case Stable =>
      var (out, n) := StablePick(Cands(scores, sl.index, cv, sl.members), prev.picked);
      X.MasterPick(out, n)
  }

  function SlotPicks(scores: map<string, NodeScore>, chain: Scores, now: int, sl: SlotConfig, prev: Picks): Picks {
    Picks(PickFor(scores, sl, prev.pool, map[]),
          if sl.strategy == Manual then map[] else MastersPicks(scores, chain, now, sl, prev, sl.masters))
  }

  // A master's own pick, for each of the masters with a verdict on some member.
  function MastersPicks(scores: map<string, NodeScore>, chain: Scores, now: int, sl: SlotConfig, prev: Picks,
                        masters: seq<string>)
    : map<string, MasterPick>
  {
    map m | m in masters && View(chain, m, sl.members, now) != map[] ::
      PickFor(scores, sl, PickOf(prev, m), View(chain, m, sl.members, now))
  }

  lemma PickForSettles(scores: map<string, NodeScore>, sl: SlotConfig, prev: MasterPick, cv: ChainView)
    requires Distinct(sl.members) && SaneView(cv) && forall t :: t in scores ==> SaneScore(scores[t])
    ensures var p1 := PickFor(scores, sl, prev, cv);
            var p2 := PickFor(scores, sl, p1, cv);
            PickFor(scores, sl, p2, cv) == p2 && (sl.strategy != Agile ==> p2 == p1)
  {
    match sl.strategy
    case Manual =>
    case Agile => AgilePickSettles(scores, sl.index, cv, sl.members, prev.picked,
                                   X.ActiveCount(prev.active, prev.picked));
    case Stable =>
      RecordedCandsSane(scores, sl.index, cv, sl.members);
      StablePickFixedPoint(Cands(scores, sl.index, cv, sl.members), prev.picked);
  }

  // With nothing new observed, re-ranking a slot from its own last picks changes
  // nothing after one round (two for an agile pool), for the pool and for every
  // master: the poll then reports no repick and the routing is left alone.
  lemma SlotPicksSettle(scores: map<string, NodeScore>, chain: Scores, now: int, sl: SlotConfig, prev: Picks)
    requires Distinct(sl.members) && SaneScores(chain) && forall t :: t in scores ==> SaneScore(scores[t])
    ensures var p1 := SlotPicks(scores, chain, now, sl, prev);
            var p2 := SlotPicks(scores, chain, now, sl, p1);
            SlotPicks(scores, chain, now, sl, p2) == p2 && (sl.strategy != Agile ==> p2 == p1)
  {
    hide PickFor, View;
    var p1 := SlotPicks(scores, chain, now, sl, prev);
    var p2 := SlotPicks(scores, chain, now, sl, p1);
    var p3 := SlotPicks(scores, chain, now, sl, p2);
    PickForSettles(scores, sl, prev.pool, map[]);
    forall m | m in p1.masters
      ensures p3.masters[m] == p2.masters[m] && (sl.strategy != Agile ==> p2.masters[m] == p1.masters[m])
    {
      ViewSane(chain, m, sl.members, now);
      PickForSettles(scores, sl, PickOf(prev, m), View(chain, m, sl.members, now));
    }
    assert p3.masters == p2.masters;
    assert sl.strategy != Agile ==> p2.masters == p1.masters;
  }

  // What is on record for a pair whose last probe is less than half an hour old.
  function FreshScore(chain: Scores, master: string, k: string, now: int): Option<ChainScore> {
    if k in Row(chain, master) && now - Row(chain, master)[k].at < 1800 then Some(Row(chain, master)[k]) else None
  }

  // Older verdicts change no pick: scores that agree on the fresh ones pick alike.
  lemma StaleChangesNothing(scores: map<string, NodeScore>, a: Scores, b: Scores, now: int, sl: SlotConfig,
                            prev: Picks)
    requires forall m, k :: m in sl.masters && k in sl.members ==> FreshScore(a, m, k, now) == FreshScore(b, m, k, now)
    ensures SlotPicks(scores, a, now, sl, prev) == SlotPicks(scores, b, now, sl, prev)
  {
    hide View, PickFor, FreshScore;
    forall m | m in sl.masters ensures View(a, m, sl.members, now) == View(b, m, sl.members, now) {
      ViewFresh(a, b, m, sl.members, now);
    }
    SameViews(scores, a, b, now, sl, prev);
  }

  lemma SameViews(scores: map<string, NodeScore>, a: Scores, b: Scores, now: int, sl: SlotConfig, prev: Picks)
    requires forall m :: m in sl.masters ==> View(a, m, sl.members, now) == View(b, m, sl.members, now)
    ensures MastersPicks(scores, a, now, sl, prev, sl.masters) == MastersPicks(scores, b, now, sl, prev, sl.masters)
  {
    hide View, PickFor;
    var x, y := MastersPicks(scores, a, now, sl, prev, sl.masters), MastersPicks(scores, b, now, sl, prev, sl.masters);
    forall m ensures m in x <==> m in y { }
    forall m | m in x ensures x[m] == y[m] { }
  }

  lemma ViewFresh(a: Scores, b: Scores, m: string, members: seq<string>, now: int)
    requires forall k :: k in members ==> FreshScore(a, m, k, now) == FreshScore(b, m, k, now)
    ensures View(a, m, members, now) == View(b, m, members, now)
  {
    var v, w := View(a, m, members, now), View(b, m, members, now);
    forall k | k in members ensures k in v <==> k in w { VerdictSeen(a, m, members, now, k); }
    hide Verdict;
    assert v.Keys == w.Keys;
  }

  class Slot {
    const cfg: SlotConfig
    var picked: seq<string>
    var active: nat
    var masterPicks: map<string, MasterPick>

    constructor (cfg: SlotConfig)
      ensures this.cfg == cfg && Current() == Picks(X.MasterPick([], 0), map[])
    {
      this.cfg := cfg;
      picked, active, masterPicks := [], 0, map[];
    }

    function Current(): Picks
      reads this
    {
      Picks(X.MasterPick(picked, active), masterPicks)
    }

    method PickSlot(p: NodePicker, prev: Picks, chain: ChainScores, now: int)
      requires Distinct(cfg.members)
      modifies this
      ensures Current() == SlotPicks(p.scores, chain.m, now, cfg, prev)
    {
      var pool := PickFrom(p, cfg, prev.pool, map[]);
      picked, active := pool.picked, pool.active;
      masterPicks := map[];
      if cfg.strategy == Manual { return; }
      masterPicks := PickMasters(p, cfg, prev, chain.m, now);
    }
  }

  method PickMasters(p: NodePicker, sl: SlotConfig, prev: Picks, chain: Scores, now: int)
    returns (picks: map<string, MasterPick>)
    requires Distinct(sl.members)
    ensures picks == MastersPicks(p.scores, chain, now, sl, prev, sl.masters)
  {
    hide PickFor, View;
    picks := map[];
    for i := 0 to |sl.masters|
      invariant picks == MastersPicks(p.scores, chain, now, sl, prev, sl.masters[..i])
    {
      var master := sl.masters[i];
      assert sl.masters[..i + 1] == sl.masters[..i] + [master];
      var cv := View(chain, master, sl.members, now);
      if cv != map[] {
        var mp := PickFrom(p, sl, PickOf(prev, master), cv);
        picks := picks[master := mp];
      }
    }
    assert sl.masters[..|sl.masters|] == sl.masters;
  }

  method PickFrom(p: NodePicker, sl: SlotConfig, prev: MasterPick, cv: ChainView) returns (mp: MasterPick)
    requires Distinct(sl.members)
    ensures mp == PickFor(p.scores, sl, prev, cv)
  {
    match sl.strategy
    case Manual =>
      mp := X.MasterPick(sl.pinned, |sl.pinned|);
    case Agile =>
      var out, n := PickAgile(p, sl.index, sl.members, prev.picked, X.ActiveCount(prev.active, prev.picked), cv);
      mp := X.MasterPick(out, n);
    case Stable =>
      var out, n := Pick(p, sl.index, sl.members, prev.picked, cv);
      mp := X.MasterPick(out, n);
  }
}
