// Health scores of pool members (daemon/nodepick.go): one exponentially
// weighted record per member tag, folded forward poll by poll.
module NodeScores {
  import opened Wrappers
  import opened Tags

  const ALPHA := 0.15
  const HEALTHY_RATIO := 0.8
  const OK_FLOOR := 0.05

  const TIER_HEALTHY := 0
  const TIER_UNKNOWN := 1
  const TIER_SUSPECT := 2
  const TIER_CHAIN_BAD := 3
  const TIER_DEAD := 4

  datatype NodeStatus = NodeStatus(alive: bool, delay: int, all: int, fail: int)

  datatype NodeScore = NodeScore(
    ok: real, rttMs: real, lastRTT: real, hasRTT: bool,
    alive: bool, clean: bool, sampled: bool, wentDown: bool)

  // A pool as the picker reads it: its slot index and its member keys.
  datatype Pool = Pool(index: nat, members: seq<string>)

  function Get<K, V>(m: map<K, V>, k: K): Option<V> {
    if k in m then Some(m[k]) else None
  }

  function Tier(sc: Option<NodeScore>): nat {
    if sc.None? || !sc.value.sampled then TIER_UNKNOWN
    else if !sc.value.alive then TIER_DEAD
    else if !sc.value.clean || sc.value.ok < HEALTHY_RATIO || !sc.value.hasRTT then TIER_SUSPECT
    else TIER_HEALTHY
  }

  function Cost(sc: NodeScore): real {
    var ok := if sc.ok < OK_FLOOR then OK_FLOOR else sc.ok;
    assert ok * ok > 0.0;
    sc.rttMs / (ok * ok)
  }

  predicate Sampled(byTag: map<string, NodeStatus>, tag: string) {
    tag in byTag && byTag[tag].all > 0
  }

  predicate SaneStatuses(byTag: map<string, NodeStatus>) {
    forall t :: t in byTag ==> 0 <= byTag[t].fail <= byTag[t].all
  }

  // What every recorded score satisfies, so that no cost is ever negative.
  predicate SaneScore(sc: NodeScore) {
    0.0 <= sc.ok <= 1.0 && 0.0 <= sc.rttMs && 0.0 <= sc.lastRTT && (sc.hasRTT ==> 0.0 < sc.rttMs)
  }

  lemma CostNonNegative(sc: NodeScore)
    requires SaneScore(sc)
    ensures Cost(sc) >= 0.0
  {
    var ok := if sc.ok < OK_FLOOR then OK_FLOOR else sc.ok;
    assert ok * ok > 0.0;
    assert sc.rttMs / (ok * ok) >= 0.0;
  }

  // A cost, and the success rate and round trip it comes from.
  predicate Priced(cost: real, ok: real, rtt: real) {
    ok > 0.0 && rtt > 0.0 && cost * (ok * ok) == rtt
  }

  // Answering at least as often and as fast costs no more, and as much only if it
  // is as often and as fast.
  lemma CostOrder(c: real, ok: real, rtt: real, c': real, ok': real, rtt': real)
    requires Priced(c, ok, rtt) && Priced(c', ok', rtt') && ok <= ok' && rtt' <= rtt && c <= c'
    ensures ok == ok' && rtt == rtt'
  {
    var d, d' := ok * ok, ok' * ok';
    Squares(ok, ok', d, d');
    Products(c, d, c', d');
  }

  lemma Squares(a: real, b: real, d: real, d': real)
    requires 0.0 < a <= b && d == a * a && d' == b * b
    ensures 0.0 < d <= d' && (d == d' ==> a == b)
  {
    Signs(a, a, d);
    Signs(b - a, b + a, d' - d);
  }

  lemma Products(q: real, d: real, q': real, d': real)
    requires 0.0 < q' * d' <= q * d && 0.0 < d <= d' && q <= q'
    ensures d == d' && q * d == q' * d'
  {
    Signs(q, d, q * d);
    Signs(q' - q, d', (q' - q) * d');
    Signs(d' - d, q, (d' - d) * q);
    assert q' * d' - q * d == (q' - q) * d' + (d' - d) * q;
  }

  lemma Signs(x: real, y: real, xy: real)
    requires y > 0.0 && xy == x * y
    ensures (xy > 0.0 <==> x > 0.0) && (xy < 0.0 <==> x < 0.0)
  {
  }

  // ---- one poll folded into the scores -------------------------------------

  function Loaded(pools: seq<Pool>): set<string> {
    set p, k | p in pools && k in p.members :: SlotMemberTag(p.index, k)
  }

  predicate AnySampled(loaded: set<string>, byTag: map<string, NodeStatus>) {
    exists t :: t in loaded && Sampled(byTag, t)
  }

  predicate AnyAlive(loaded: set<string>, byTag: map<string, NodeStatus>) {
    exists t :: t in loaded && Sampled(byTag, t) && byTag[t].alive
  }

  lemma AnyWith(tags: set<string>, tag: string, byTag: map<string, NodeStatus>)
    ensures AnySampled(tags + {tag}, byTag) <==> AnySampled(tags, byTag) || Sampled(byTag, tag)
    ensures AnyAlive(tags + {tag}, byTag) <==> AnyAlive(tags, byTag) || (Sampled(byTag, tag) && byTag[tag].alive)
  {
    if AnySampled(tags, byTag) {
      var t :| t in tags && Sampled(byTag, t);
      assert t in tags + {tag};
    }
    if AnyAlive(tags, byTag) {
      var t :| t in tags && Sampled(byTag, t) && byTag[t].alive;
      assert t in tags + {tag};
    }
    assert tag in tags + {tag};
  }

  // The share of a poll's pings that were answered.
  function Answered(st: NodeStatus): real
    requires st.all > 0
  {
    (st.all - st.fail) as real / st.all as real
  }

  // A score after one poll of its own member.
  function Folded(prev: Option<NodeScore>, st: NodeStatus): NodeScore
    requires st.all > 0
  {
    var ratio := Answered(st);
    var base := if prev.Some? then prev.value.(ok := prev.value.ok + ALPHA * (ratio - prev.value.ok))
                else NodeScore(ratio, 0.0, 0.0, false, false, false, false, false);
    var down := base.sampled && base.alive && !st.alive;
    var timed :=
      if st.alive && st.delay > 0 then
        base.(lastRTT := st.delay as real, hasRTT := true,
              rttMs := if base.hasRTT then base.rttMs + ALPHA * (st.delay as real - base.rttMs) else st.delay as real)
      else base;
    timed.(alive := st.alive, clean := st.fail == 0, sampled := true, wentDown := down)
  }

  function Kept(scores: map<string, NodeScore>, loaded: set<string>): map<string, NodeScore> {
    map t | t in scores && t in loaded :: scores[t].(wentDown := false)
  }

  function After(kept: map<string, NodeScore>, loaded: set<string>, byTag: map<string, NodeStatus>)
    : map<string, NodeScore>
  {
    map t | t in loaded && (t in kept || Sampled(byTag, t)) ::
      if Sampled(byTag, t) then Folded(Get(kept, t), byTag[t]) else kept[t].(sampled := false)
  }

  // The scores after a poll, and whether the poll counted: one in which nothing
  // loaded is alive is the uplink's failure and changes no record.
  function Observed(scores: map<string, NodeScore>, pools: seq<Pool>, byTag: map<string, NodeStatus>)
    : (map<string, NodeScore>, bool)
  {
    var loaded := Loaded(pools);
    var kept := Kept(scores, loaded);
    if AnySampled(loaded, byTag) && !AnyAlive(loaded, byTag) then (kept, false)
    else (After(kept, loaded, byTag), true)
  }

  lemma FoldedSane(prev: Option<NodeScore>, st: NodeStatus)
    requires st.all > 0 && 0 <= st.fail <= st.all
    requires prev.Some? ==> SaneScore(prev.value)
    ensures SaneScore(Folded(prev, st))
  {
    Share(st);
    hide Answered;
  }

  // Every poll keeps every record sane, so by induction every reachable picker is.
  lemma ObservedSane(scores: map<string, NodeScore>, pools: seq<Pool>, byTag: map<string, NodeStatus>)
    requires SaneStatuses(byTag)
    requires forall t :: t in scores ==> SaneScore(scores[t])
    ensures var r := Observed(scores, pools, byTag).0; forall t :: t in r ==> SaneScore(r[t])
  {
    var loaded := Loaded(pools);
    var kept := Kept(scores, loaded);
    forall t | t in loaded && Sampled(byTag, t) ensures SaneScore(Folded(Get(kept, t), byTag[t])) {
      FoldedSane(Get(kept, t), byTag[t]);
    }
  }

  // An uplink outage leaves every record's judgement as it was.
  lemma OutageKeepsRecords(scores: map<string, NodeScore>, pools: seq<Pool>, byTag: map<string, NodeStatus>, t: string)
    requires !Observed(scores, pools, byTag).1 && t in Loaded(pools)
    ensures Tier(Get(Observed(scores, pools, byTag).0, t)) == Tier(Get(scores, t))
    ensures t in scores ==> Get(Observed(scores, pools, byTag).0, t) == Some(scores[t].(wentDown := false))
  {
  }

  class NodePicker {
    var scores: map<string, NodeScore>

    constructor ()
      ensures scores == map[]
    {
      scores := map[];
    }

    method Observe(pools: seq<Pool>, byTag: map<string, NodeStatus>) returns (live: bool)
      modifies this
      ensures (scores, live) == Observed(old(scores), pools, byTag)
    {
      var loaded, anySampled, anyAlive := Survey(pools, byTag);
      scores := Kept(scores, loaded);
      if anySampled && !anyAlive { return false; }
      scores := FoldPoll(scores, loaded, byTag);
      return true;
    }
  }

  method FoldPoll(kept: map<string, NodeScore>, loaded: set<string>, byTag: map<string, NodeStatus>)
    returns (scores: map<string, NodeScore>)
    requires kept.Keys <= loaded
    ensures scores == After(kept, loaded, byTag)
  {
    hide Progress, Step, After;
    scores := kept;
    ProgressDone(kept, loaded, byTag);
    var done: set<string> := {};
    while done != loaded
      invariant done <= loaded
      invariant scores == Progress(kept, done, byTag)
      decreases |loaded - done|
    {
      ghost var before := done;
      var tag :| tag in loaded - done;
      ProgressStep(kept, done, byTag, tag);
      scores := Step(scores, byTag, tag);
      done := done + {tag};
      assert loaded - before == loaded - done + {tag};
    }
  }

  // The members loaded now, and whether any of them was pinged and any answered.
  method Survey(pools: seq<Pool>, byTag: map<string, NodeStatus>)
    returns (loaded: set<string>, anySampled: bool, anyAlive: bool)
    ensures loaded == Loaded(pools)
    ensures anySampled == AnySampled(loaded, byTag) && anyAlive == AnyAlive(loaded, byTag)
  {
    loaded, anyAlive, anySampled := {}, false, false;
    for i := 0 to |pools|
      invariant loaded == Loaded(pools[..i])
      invariant anySampled == AnySampled(loaded, byTag) && anyAlive == AnyAlive(loaded, byTag)
    {
      var p := pools[i];
      ghost var before := loaded;
      for j := 0 to |p.members|
        invariant loaded == before + MemberTags(p.index, p.members[..j])
        invariant anySampled == AnySampled(loaded, byTag) && anyAlive == AnyAlive(loaded, byTag)
      {
        var tag := SlotMemberTag(p.index, p.members[j]);
        assert MemberTags(p.index, p.members[..j + 1]) == MemberTags(p.index, p.members[..j]) + {tag} by {
          assert p.members[..j + 1] == p.members[..j] + [p.members[j]];
        }
        loaded := loaded + {tag};
        if Sampled(byTag, tag) {
          anySampled := true;
          anyAlive := anyAlive || byTag[tag].alive;
        }
      }
      assert p.members[..|p.members|] == p.members;
      assert pools[..i + 1] == pools[..i] + [p];
      LoadedSnoc(pools[..i], p);
    }
    assert pools[..|pools|] == pools;
  }

  function MemberTags(index: nat, keys: seq<string>): set<string> {
    set k | k in keys :: SlotMemberTag(index, k)
  }

  // One member's poll: a member with no pings yet is only marked unsampled.
  function Step(scores: map<string, NodeScore>, byTag: map<string, NodeStatus>, tag: string): map<string, NodeScore> {
    if Sampled(byTag, tag) then scores[tag := Folded(Get(scores, tag), byTag[tag])]
    else if tag in scores then scores[tag := scores[tag].(sampled := false)]
    else scores
  }

  // The scores once the tags in done have been folded.
  function Progress(kept: map<string, NodeScore>, done: set<string>, byTag: map<string, NodeStatus>)
    : map<string, NodeScore>
  {
    map t | t in kept.Keys + done && (t in kept || Sampled(byTag, t)) ::
      if t !in done then kept[t]
      else if Sampled(byTag, t) then Folded(Get(kept, t), byTag[t])
      else kept[t].(sampled := false)
  }

  lemma ProgressStep(kept: map<string, NodeScore>, done: set<string>, byTag: map<string, NodeStatus>, tag: string)
    requires tag !in done
    ensures Progress(kept, done + {tag}, byTag) == Step(Progress(kept, done, byTag), byTag, tag)
  {
    assert Get(Progress(kept, done, byTag), tag) == Get(kept, tag);
  }

  lemma ProgressDone(kept: map<string, NodeScore>, loaded: set<string>, byTag: map<string, NodeStatus>)
    requires kept.Keys <= loaded
    ensures Progress(kept, loaded, byTag) == After(kept, loaded, byTag)
    ensures Progress(kept, {}, byTag) == kept
  {
    assert kept.Keys + loaded == loaded;
  }

  lemma LoadedSnoc(pools: seq<Pool>, p: Pool)
    ensures Loaded(pools + [p]) == Loaded(pools) + MemberTags(p.index, p.members)
  {
    var l, r := Loaded(pools + [p]), Loaded(pools) + MemberTags(p.index, p.members);
    forall t | t in r ensures t in l {
      if t in Loaded(pools) {
        var q, k :| q in pools && k in q.members && t == SlotMemberTag(q.index, k);
        assert q in pools + [p];
      } else {
        var k :| k in p.members && t == SlotMemberTag(p.index, k);
        assert p in pools + [p];
      }
    }
  }

  // ---- what a record says of the samples behind it -------------------------------

  // A member pinged in a poll that counts.
  predicate Pinged(pools: seq<Pool>, byTag: map<string, NodeStatus>, t: string) {
    t in Loaded(pools) && Sampled(byTag, t) && AnyAlive(Loaded(pools), byTag)
  }

  // A first sample is taken at its word: the share of its pings that were answered.
  lemma FirstSample(scores: map<string, NodeScore>, pools: seq<Pool>, byTag: map<string, NodeStatus>, t: string)
    requires SaneStatuses(byTag) && Pinged(pools, byTag, t) && t !in scores
    ensures var r, st := Observed(scores, pools, byTag).0, byTag[t];
            && t in r && r[t].ok * st.all as real == (st.all - st.fail) as real
            && (r[t].ok == 1.0 <==> st.fail == 0) && (r[t].ok == 0.0 <==> st.fail == st.all)
            && r[t].hasRTT == (st.alive && st.delay > 0)
            && (r[t].hasRTT ==> r[t].rttMs == r[t].lastRTT == st.delay as real)
  {
    FirstFolded(scores, pools, byTag, t);
    Share(byTag[t]);
    hide Observed, Loaded, Answered;
  }

  lemma FirstFolded(scores: map<string, NodeScore>, pools: seq<Pool>, byTag: map<string, NodeStatus>, t: string)
    requires Pinged(pools, byTag, t) && t !in scores
    ensures var r, st := Observed(scores, pools, byTag).0, byTag[t];
            && t in r && r[t].ok == Answered(st) && r[t].hasRTT == (st.alive && st.delay > 0)
            && (r[t].hasRTT ==> r[t].rttMs == r[t].lastRTT == st.delay as real)
  {
    hide Loaded, Answered;
  }

  lemma Share(st: NodeStatus)
    requires 0 <= st.fail <= st.all && 0 < st.all
    ensures Answered(st) * st.all as real == (st.all - st.fail) as real && 0.0 <= Answered(st) <= 1.0
    ensures (Answered(st) == 1.0 <==> st.fail == 0) && (Answered(st) == 0.0 <==> st.fail == st.all)
  {
  }

  // A later one pulls the record toward its own share, never past it: up exactly
  // when it answered more than the record says, down exactly when less.
  lemma SamplePulls(scores: map<string, NodeScore>, pools: seq<Pool>, byTag: map<string, NodeStatus>, t: string)
    requires Pinged(pools, byTag, t) && t in scores
    ensures var r, was, share := Observed(scores, pools, byTag).0, scores[t].ok, Answered(byTag[t]);
            && t in r
            && (r[t].ok > was <==> share > was) && (r[t].ok < was <==> share < was)
            && (share >= was ==> share >= r[t].ok) && (share <= was ==> share <= r[t].ok)
  {
    OkAfter(scores, pools, byTag, t);
    hide Observed, Loaded, Answered;
  }

  lemma OkAfter(scores: map<string, NodeScore>, pools: seq<Pool>, byTag: map<string, NodeStatus>, t: string)
    requires Pinged(pools, byTag, t) && t in scores
    ensures var r, was := Observed(scores, pools, byTag).0, scores[t].ok;
            t in r && r[t].ok == was + ALPHA * (Answered(byTag[t]) - was)
  {
    hide Loaded, Answered;
  }

  // So a sample without a loss never lowers the success rate, and one of losses
  // only never raises it.
  lemma CleanRaises(scores: map<string, NodeScore>, pools: seq<Pool>, byTag: map<string, NodeStatus>, t: string)
    requires SaneStatuses(byTag) && Pinged(pools, byTag, t) && t in scores && SaneScore(scores[t])
    ensures var r, st, was := Observed(scores, pools, byTag).0, byTag[t], scores[t].ok;
            && t in r
            && (st.fail == 0 ==> r[t].ok >= was && (was < 1.0 ==> r[t].ok > was))
            && (st.fail == st.all ==> r[t].ok <= was && (was > 0.0 ==> r[t].ok < was))
  {
    hide Observed, Loaded;
    SamplePulls(scores, pools, byTag, t);
    Share(byTag[t]);
    hide Answered;
  }

  // The round trip: a live answer is the last one; the first sets the average, a
  // later one pulls it toward itself, never past; without one nothing moves.
  lemma RoundTripPulls(scores: map<string, NodeScore>, pools: seq<Pool>, byTag: map<string, NodeStatus>, t: string)
    requires Pinged(pools, byTag, t) && t in scores
    ensures var r, st, was := Observed(scores, pools, byTag).0, byTag[t], scores[t];
            var delay := st.delay as real;
            && t in r
            && (!st.alive || st.delay <= 0 ==>
                  r[t].rttMs == was.rttMs && r[t].lastRTT == was.lastRTT && r[t].hasRTT == was.hasRTT)
            && (st.alive && st.delay > 0 ==> r[t].lastRTT == delay && r[t].hasRTT)
            && (st.alive && st.delay > 0 && !was.hasRTT ==> r[t].rttMs == delay)
            && (st.alive && st.delay > 0 && was.hasRTT && was.rttMs < delay ==> was.rttMs < r[t].rttMs < delay)
            && (st.alive && st.delay > 0 && was.hasRTT && was.rttMs > delay ==> delay < r[t].rttMs < was.rttMs)
            && (st.alive && st.delay > 0 && was.hasRTT && was.rttMs == delay ==> r[t].rttMs == delay)
  {
    hide Loaded;
  }

  // What a sample decides of the tier: unknown without a ping, dead when nothing
  // answers, healthy with no ping lost, four in five answered so far and a round
  // trip measured. A member went down that was up when last pinged.
  lemma SampleTier(scores: map<string, NodeScore>, pools: seq<Pool>, byTag: map<string, NodeStatus>, t: string)
    requires t in Loaded(pools) && AnyAlive(Loaded(pools), byTag)
    ensures var r := Observed(scores, pools, byTag).0;
            var tier := Tier(Get(r, t));
            && (tier == TIER_UNKNOWN <==> !Sampled(byTag, t))
            && (Sampled(byTag, t) ==> t in r && (tier == TIER_DEAD <==> !byTag[t].alive))
            && (tier == TIER_HEALTHY <==>
                  Sampled(byTag, t) && byTag[t].alive && byTag[t].fail == 0 && r[t].ok >= 0.8 && r[t].hasRTT)
            && (t in r && r[t].wentDown <==>
                  Sampled(byTag, t) && !byTag[t].alive && t in scores && scores[t].sampled && scores[t].alive)
  {
    hide Loaded;
  }

  // ---- many polls ------------------------------------------------------------------

  datatype Sweep = Sweep(pools: seq<Pool>, byTag: map<string, NodeStatus>)

  function ScoresAfter(scores: map<string, NodeScore>, sweeps: seq<Sweep>): map<string, NodeScore> {
    if sweeps == [] then scores
    else
      var s := sweeps[|sweeps| - 1];
      Observed(ScoresAfter(scores, sweeps[..|sweeps| - 1]), s.pools, s.byTag).0
  }

  // A live sample of the member, with a round trip and no loss.
  predicate CleanSweep(s: Sweep, t: string) {
    && t in Loaded(s.pools) && Sampled(s.byTag, t)
    && s.byTag[t].alive && s.byTag[t].delay > 0 && s.byTag[t].fail == 0
  }

  // What a success rate is short of one after n clean samples.
  function Shortfall(ok: real, n: nat): real {
    if n == 0 then 1.0 - ok else 0.85 * Shortfall(ok, n - 1)
  }

  // Clean samples close the gap to a full success rate by the same factor each.
  lemma {:induction false} CleanStretch(scores: map<string, NodeScore>, sweeps: seq<Sweep>, t: string)
    requires t in scores && forall i :: 0 <= i < |sweeps| ==> CleanSweep(sweeps[i], t)
    ensures var r := ScoresAfter(scores, sweeps);
            && t in r && 1.0 - r[t].ok == Shortfall(scores[t].ok, |sweeps|)
            && (sweeps != [] ==> r[t].sampled && r[t].alive && r[t].clean && r[t].hasRTT)
  {
    if sweeps != [] {
      var init, s := sweeps[..|sweeps| - 1], sweeps[|sweeps| - 1];
      CleanStretch(scores, init, t);
      assert CleanSweep(s, t);
      CleanOne(ScoresAfter(scores, init), s, t);
      hide CleanSweep, Observed;
    }
  }

  lemma CleanOne(before: map<string, NodeScore>, s: Sweep, t: string)
    requires t in before && CleanSweep(s, t)
    ensures var r := Observed(before, s.pools, s.byTag).0;
            && t in r && 1.0 - r[t].ok == 0.85 * (1.0 - before[t].ok)
            && r[t].sampled && r[t].alive && r[t].clean && r[t].hasRTT
  {
    Share(s.byTag[t]);
    hide Loaded, Answered;
  }

  // A stretch of clean samples makes a member healthy exactly when what it is
  // still short of is at most a fifth.
  lemma HealthyIff(scores: map<string, NodeScore>, sweeps: seq<Sweep>, t: string)
    requires t in scores && sweeps != [] && forall i :: 0 <= i < |sweeps| ==> CleanSweep(sweeps[i], t)
    ensures Tier(Get(ScoresAfter(scores, sweeps), t)) == TIER_HEALTHY <==> Shortfall(scores[t].ok, |sweeps|) <= 0.2
  {
    hide ScoresAfter, CleanSweep;
    CleanStretch(scores, sweeps, t);
  }

  // Ten clean samples are enough from any record; nine are not from an all-failed one.
  lemma TenCleanHeal(scores: map<string, NodeScore>, sweeps: seq<Sweep>, t: string)
    requires t in scores && SaneScore(scores[t]) && forall i :: 0 <= i < |sweeps| ==> CleanSweep(sweeps[i], t)
    ensures |sweeps| >= 10 ==> Tier(Get(ScoresAfter(scores, sweeps), t)) == TIER_HEALTHY
    ensures 0 < |sweeps| < 10 && scores[t].ok == 0.0 ==> Tier(Get(ScoresAfter(scores, sweeps), t)) == TIER_SUSPECT
  {
    hide ScoresAfter, CleanSweep;
    if sweeps != [] {
      HealthyIff(scores, sweeps, t);
      CleanStretch(scores, sweeps, t);
      ShortfallTen(scores[t].ok);
      hide Shortfall;
      if |sweeps| >= 10 {
        ShortfallFalls(scores[t].ok, 10, |sweeps|);
      } else {
        ShortfallFalls(scores[t].ok, |sweeps|, 9);
      }
    }
  }

  lemma {:induction false} ShortfallFalls(ok: real, m: nat, n: nat)
    requires ok <= 1.0 && m <= n
    ensures 0.0 <= Shortfall(ok, n) <= Shortfall(ok, m)
    decreases n
  {
    if m < n {
      ShortfallFalls(ok, m, n - 1);
    } else if n > 0 {
      ShortfallFalls(ok, n - 1, n - 1);
    }
  }

  lemma ShortfallTen(ok: real)
    ensures ok >= 0.0 ==> Shortfall(ok, 10) <= 0.2
    ensures ok == 0.0 ==> Shortfall(ok, 9) > 0.2
  {
    ShortfallThree(ok, 0);
    ShortfallThree(ok, 3);
    ShortfallThree(ok, 6);
    assert Shortfall(ok, 10) == 0.85 * Shortfall(ok, 9);
  }

  lemma ShortfallThree(ok: real, n: nat)
    ensures Shortfall(ok, n + 3) == 0.614125 * Shortfall(ok, n)
  {
    assert Shortfall(ok, n + 2) == 0.85 * Shortfall(ok, n + 1);
  }
}
