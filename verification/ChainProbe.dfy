// Probing each master through each pool member (daemon/chainprobe.go): the
// scores kept per master and member, and the verdicts the picks read.
module ChainProbe {
  import opened Wrappers
  import opened NodeScores
  import opened StableRanking

  const CHAIN_ALPHA := 0.5
  const GOOD_RATIO := 0.5
  const VERDICT_TTL := 30 * 60 // seconds

  datatype ChainScore = ChainScore(ok: real, rttMs: real, hasRTT: bool, at: int, lastErr: string)
  type Scores = map<string, map<string, ChainScore>>

  // One probed pair of a round and what the probe found.
  datatype Probe = Probe(master: string, key: string, passed: nat, attempts: nat, ms: nat, err: string)

  function Verdict(c: ChainScore): ChainVerdict {
    if c.ok < GOOD_RATIO || !c.hasRTT then ChainVerdict(CHAIN_BAD, 0.0)
    else
      assert c.ok * c.ok > 0.0;
      ChainVerdict(CHAIN_GOOD, c.rttMs / (c.ok * c.ok))
  }

  predicate SaneChainScore(c: ChainScore) {
    0.0 <= c.ok <= 1.0 && c.rttMs >= 0.0
  }

  predicate SaneScores(m: Scores) {
    forall a, k :: a in m && k in m[a] ==> SaneChainScore(m[a][k])
  }

  function Blended(prev: Option<ChainScore>, p: Probe, at: int): ChainScore
    requires p.attempts > 0
  {
    var ratio := p.passed as real / p.attempts as real;
    var ok := if prev.None? then ratio else prev.value.ok + CHAIN_ALPHA * (ratio - prev.value.ok);
    var (rtt, timed) :=
      if p.passed == 0 then (if prev.None? then (0.0, false) else (prev.value.rttMs, prev.value.hasRTT))
      else if prev.None? || !prev.value.hasRTT then (p.ms as real, true)
      else (prev.value.rttMs + CHAIN_ALPHA * (p.ms as real - prev.value.rttMs), true);
    ChainScore(ok, rtt, timed, at, if p.passed == 0 then p.err else "")
  }

  function Row(m: Scores, master: string): map<string, ChainScore> {
    if master in m then m[master] else map[]
  }

  // Folding one probe into the scores; a probe that never ran changes nothing.
  function Recorded(m: Scores, p: Probe, at: int): Scores {
    if p.attempts == 0 then m
    else m[p.master := Row(m, p.master)[p.key := Blended(Get(Row(m, p.master), p.key), p, at)]]
  }

  // The verdicts on a master's members that are still fresh.
  function View(m: Scores, master: string, members: seq<string>, now: int): ChainView {
    var row := Row(m, master);
    map k | k in members && k in row && now - row[k].at < VERDICT_TTL :: Verdict(row[k])
  }

  // A round's outcome: a master none of whose probes passed is taken to be down
  // itself, so none of its members is judged by this round.
  function RoundFolded(m: Scores, probes: seq<Probe>, round: seq<Probe>, at: int): Scores {
    if probes == [] then m
    else
      var before := RoundFolded(m, probes[..|probes| - 1], round, at);
      var p := probes[|probes| - 1];
      if AnyPassed(round, p.master) then Recorded(before, p, at) else before
  }

  predicate AnyPassed(round: seq<Probe>, master: string) {
    exists p :: p in round && p.master == master && p.passed > 0
  }

  lemma RecordedSane(m: Scores, p: Probe, at: int)
    requires SaneScores(m) && p.passed <= p.attempts
    ensures SaneScores(Recorded(m, p, at))
  {
    if p.attempts > 0 {
      var ratio := p.passed as real / p.attempts as real;
      assert 0.0 <= ratio <= 1.0;
      assert SaneChainScore(Blended(Get(Row(m, p.master), p.key), p, at));
    }
  }

  lemma {:induction false} RoundSane(m: Scores, probes: seq<Probe>, round: seq<Probe>, at: int)
    requires SaneScores(m) && forall p :: p in probes ==> p.passed <= p.attempts
    ensures SaneScores(RoundFolded(m, probes, round, at))
  {
    if probes != [] {
      var p := probes[|probes| - 1];
      assert p in probes;
      RoundSane(m, probes[..|probes| - 1], round, at);
      RecordedSane(RoundFolded(m, probes[..|probes| - 1], round, at), p, at);
    }
  }

  lemma ViewSane(m: Scores, master: string, members: seq<string>, now: int)
    requires SaneScores(m)
    ensures SaneView(View(m, master, members, now))
  {
    forall k | k in View(m, master, members, now) ensures View(m, master, members, now)[k].cost >= 0.0 {
      var c := Row(m, master)[k];
      assert SaneChainScore(c);
      assert c.ok >= GOOD_RATIO ==> c.ok * c.ok > 0.0;
    }
  }

  // A master that failed through every member probed in a round keeps every verdict.
  lemma {:induction false} DownMasterBlamesNoNode(m: Scores, probes: seq<Probe>, round: seq<Probe>, at: int,
      master: string)
    requires !AnyPassed(round, master)
    ensures Get(RoundFolded(m, probes, round, at), master) == Get(m, master)
  {
    if probes != [] { DownMasterBlamesNoNode(m, probes[..|probes| - 1], round, at, master); }
  }

  // A member that failed its last two probes is chain-failed, whatever came
  // before; one that passed its last is good.
  lemma RecentProbesDecide(prev: Option<ChainScore>, p: Probe, q: Probe, at: int)
    requires prev.Some? ==> SaneChainScore(prev.value)
    requires 0 < p.attempts && 0 < q.attempts
    ensures p.passed == 0 && q.passed == 0 ==> Verdict(Blended(Some(Blended(prev, p, at)), q, at)).grade == CHAIN_BAD
    ensures p.passed == p.attempts ==> Verdict(Blended(prev, p, at)).grade == CHAIN_GOOD
  {
    assert p.passed == p.attempts ==> p.passed as real / p.attempts as real == 1.0;
    assert p.passed == 0 ==> p.passed as real / p.attempts as real == 0.0;
    assert q.passed == 0 ==> q.passed as real / q.attempts as real == 0.0;
  }

  // ---- what a verdict says of the probes behind it --------------------------------

  // A pair's first probe is taken at its word: the share that passed, and the time
  // it took if any did.
  lemma FirstProbe(m: Scores, p: Probe, at: int)
    requires 0 < p.attempts && p.passed <= p.attempts && p.key !in Row(m, p.master)
    ensures var c := Row(Recorded(m, p, at), p.master)[p.key];
            && c.ok * p.attempts as real == p.passed as real && c.at == at
            && c.hasRTT == (p.passed > 0) && (p.passed > 0 ==> c.rttMs == p.ms as real)
  {
    assert p.passed as real / p.attempts as real * p.attempts as real == p.passed as real;
  }

  // A later one moves its success rate halfway to its own share, and its time
  // halfway to its own if it passed at all; no other pair moves.
  lemma ProbePulls(m: Scores, p: Probe, at: int)
    requires 0 < p.attempts && p.key in Row(m, p.master)
    ensures var was, c := Row(m, p.master)[p.key], Row(Recorded(m, p, at), p.master)[p.key];
            && c.ok - was.ok == p.passed as real / p.attempts as real - c.ok && c.at == at
            && (p.passed == 0 ==> c.rttMs == was.rttMs && c.hasRTT == was.hasRTT)
            && (p.passed > 0 ==> c.hasRTT)
            && (p.passed > 0 && !was.hasRTT ==> c.rttMs == p.ms as real)
            && (p.passed > 0 && was.hasRTT ==> c.rttMs - was.rttMs == p.ms as real - c.rttMs)
    ensures forall a, k :: a != p.master || k != p.key ==>
              Get(Row(Recorded(m, p, at), a), k) == Get(Row(m, a), k)
  {
  }

  // A member counts for a master while its last probe is less than half an hour
  // old: as proven if at least half its probes pass and one was timed, as failing
  // otherwise.
  lemma VerdictSeen(m: Scores, master: string, members: seq<string>, now: int, k: string)
    ensures var v := View(m, master, members, now);
            && (k in v <==> k in members && k in Row(m, master) && now - Row(m, master)[k].at < 1800)
            && (k in v ==>
                  && (v[k].grade == CHAIN_GOOD <==> Row(m, master)[k].ok >= 0.5 && Row(m, master)[k].hasRTT)
                  && (v[k].grade == CHAIN_GOOD || v[k].grade == CHAIN_BAD))
  {
  }

  // Of two proven members the one that passes at least as often and as fast costs
  // no more, and as much only if it does neither better.
  lemma SteadierCostsLess(c: ChainScore, d: ChainScore)
    requires Verdict(c).grade == CHAIN_GOOD && Verdict(d).grade == CHAIN_GOOD && d.rttMs > 0.0
    requires c.ok <= d.ok && d.rttMs <= c.rttMs
    ensures Verdict(d).cost <= Verdict(c).cost
    ensures Verdict(d).cost == Verdict(c).cost ==> d.ok == c.ok && d.rttMs == c.rttMs
  {
    VerdictPriced(c);
    VerdictPriced(d);
    hide *;
    if Verdict(c).cost <= Verdict(d).cost {
      CostOrder(Verdict(c).cost, c.ok, c.rttMs, Verdict(d).cost, d.ok, d.rttMs);
      SamePrice(Verdict(c).cost, Verdict(d).cost, c.ok, c.rttMs);
    }
  }

  lemma VerdictPriced(c: ChainScore)
    requires Verdict(c).grade == CHAIN_GOOD && c.rttMs > 0.0
    ensures Priced(Verdict(c).cost, c.ok, c.rttMs)
  {
    assert c.ok * c.ok > 0.0;
  }

  lemma SamePrice(a: real, b: real, ok: real, rtt: real)
    requires Priced(a, ok, rtt) && Priced(b, ok, rtt)
    ensures a == b
  {
    Squares(ok, ok, ok * ok, ok * ok);
    Signs(a - b, ok * ok, (a - b) * (ok * ok));
    assert (a - b) * (ok * ok) == a * (ok * ok) - b * (ok * ok);
  }

  class ChainScores {
    var m: Scores

    constructor ()
      ensures m == map[]
    {
      m := map[];
    }

    method Record(p: Probe, at: int)
      modifies this
      ensures m == Recorded(old(m), p, at)
    {
      if p.attempts == 0 { return; }
      var byKey: map<string, ChainScore> := if p.master in m then m[p.master] else map[];
      var ratio := p.passed as real / p.attempts as real;
      var sc := ChainScore(ratio, 0.0, false, at, "");
      if p.key in byKey {
        sc := byKey[p.key];
        sc := sc.(ok := sc.ok + CHAIN_ALPHA * (ratio - sc.ok));
      }
      if p.passed > 0 {
        if !sc.hasRTT {
          sc := sc.(rttMs := p.ms as real, hasRTT := true);
        } else {
          sc := sc.(rttMs := sc.rttMs + CHAIN_ALPHA * (p.ms as real - sc.rttMs));
        }
      }
      sc := sc.(at := at, lastErr := "");
      if p.passed == 0 { sc := sc.(lastErr := p.err); }
      m := m[p.master := byKey[p.key := sc]];
    }

    // The fold at the end of a probe round.
    method FoldRound(round: seq<Probe>, at: int)
      modifies this
      ensures m == RoundFolded(old(m), round, round, at)
    {
      var passed: set<string> := {};
      for i := 0 to |round|
        invariant forall a :: a in passed <==> AnyPassed(round[..i], a)
        invariant m == old(m)
      {
        assert round[..i + 1] == round[..i] + [round[i]];
        forall a
          ensures AnyPassed(round[..i + 1], a) <==>
                    AnyPassed(round[..i], a) || (round[i].master == a && round[i].passed > 0)
        {
          if AnyPassed(round[..i], a) {
            var p :| p in round[..i] && p.master == a && p.passed > 0;
            assert p in round[..i + 1];
          }
          if round[i].master == a && round[i].passed > 0 { assert round[i] in round[..i + 1]; }
        }
        if round[i].passed > 0 { passed := passed + {round[i].master}; }
      }
      assert round[..|round|] == round;
      for i := 0 to |round|
        invariant m == RoundFolded(old(m), round[..i], round, at)
      {
        assert round[..i + 1][..i] == round[..i];
        if round[i].master in passed { Record(round[i], at); }
      }
    }
  }
}
