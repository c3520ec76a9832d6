// Latency probing in batches: packing, and finding the item that stops an
// instance from starting (core/xray/probe.go).
module ProbeBatch {
  import opened Wrappers
  import opened Sorting

  const DEFAULT_PROBE_BATCH := 24

  // ---- packing -------------------------------------------------------------------

  // An item's hysteria endpoint, "" when it dials none.
  predicate Fits(batch: seq<nat>, size: nat, eps: seq<string>, i: nat)
    requires i < |eps|
  {
    |batch| < size && (eps[i] == "" || eps[i] !in Endpoints(batch, eps))
  }

  function Endpoints(batch: seq<nat>, eps: seq<string>): set<string> {
    set k | k in batch && k < |eps| && eps[k] != "" :: eps[k]
  }

  // The first batch from b on that takes the item.
  function FirstFit(batches: seq<seq<nat>>, b: nat, size: nat, eps: seq<string>, i: nat): (r: nat)
    requires i < |eps| && b <= |batches|
    ensures b <= r <= |batches|
    ensures r < |batches| ==> Fits(batches[r], size, eps, i)
    ensures forall c :: b <= c < r ==> !Fits(batches[c], size, eps, i)
    decreases |batches| - b
  {
    if b == |batches| || Fits(batches[b], size, eps, i) then b else FirstFit(batches, b + 1, size, eps, i)
  }

  function Place(batches: seq<seq<nat>>, b: nat, i: nat): seq<seq<nat>>
    requires b <= |batches|
  {
    if b == |batches| then batches + [[i]] else batches[b := batches[b] + [i]]
  }

  predicate Indices(idx: seq<nat>, n: nat) {
    forall k :: 0 <= k < |idx| ==> idx[k] < n
  }

  function Plan(eps: seq<string>, idx: seq<nat>, size: nat): seq<seq<nat>>
    requires Indices(idx, |eps|)
  {
    if idx == [] then []
    else
      var init, i := idx[..|idx| - 1], idx[|idx| - 1];
      var bs := Plan(eps, init, size);
      Place(bs, FirstFit(bs, 0, size, eps, i), i)
  }

  method PlanProbeBatches(eps: seq<string>, idx: seq<nat>, size: nat) returns (batches: seq<seq<nat>>)
    requires Indices(idx, |eps|)
    ensures batches == Plan(eps, idx, size)
  {
    batches := [];
    var seen: seq<set<string>> := [];
    for n := 0 to |idx|
      invariant batches == Plan(eps, idx[..n], size)
      invariant |seen| == |batches| && forall b :: 0 <= b < |batches| ==> seen[b] == Endpoints(batches[b], eps)
    {
      assert idx[..n + 1][..n] == idx[..n];
      var i := idx[n];
      var ep := eps[i];
      var b := 0;
      while b < |batches| && !(|batches[b]| < size && (ep == "" || ep !in seen[b]))
        invariant b <= |batches|
        invariant FirstFit(batches, 0, size, eps, i) == FirstFit(batches, b, size, eps, i)
      {
        b := b + 1;
      }
      if b < |batches| {
        batches := batches[b := batches[b] + [i]];
        if ep != "" { seen := seen[b := seen[b] + {ep}]; }
      } else {
        batches := batches + [[i]];
        seen := seen + [if ep != "" then {ep} else {}];
      }
    }
    assert idx[..|idx|] == idx;
  }

  predicate Ascending(s: seq<nat>) {
    forall i, j :: 0 <= i < j < |s| ==> s[i] < s[j]
  }

  ghost predicate NoClash(batch: seq<nat>, eps: seq<string>) {
    forall x, y :: x in batch && y in batch && x != y && x < |eps| && y < |eps| && eps[x] == eps[y] ==> eps[x] == ""
  }

  predicate Full(batch: seq<nat>, size: nat) { |batch| >= size }

  // An item of the batch before i with i's own endpoint.
  ghost predicate Blocks(batch: seq<nat>, eps: seq<string>, i: nat) {
    exists x :: x in batch && x < i < |eps| && eps[x] == eps[i] && eps[x] != ""
  }

  ghost predicate InSome(bs: seq<seq<nat>>, k: nat) {
    exists b :: 0 <= b < |bs| && k in bs[b]
  }

  // No batch is empty, too long or holds two equal endpoints, and each keeps the items' order.
  ghost predicate GoodBatch(eps: seq<string>, size: nat, batch: seq<nat>) {
    0 < |batch| && (|batch| <= size || |batch| == 1) && Ascending(batch) && NoClash(batch, eps)
  }

  // Every item is in exactly one batch.
  ghost predicate Partition(idx: seq<nat>, bs: seq<seq<nat>>) {
    && (forall k :: k in idx <==> InSome(bs, k))
    && (forall b, c, k :: 0 <= b < |bs| && 0 <= c < |bs| && k in bs[b] && k in bs[c] ==> b == c)
  }

  // No item is placed later than the first batch that had room for it.
  ghost predicate Greedy(eps: seq<string>, size: nat, bs: seq<seq<nat>>) {
    forall b, c, k :: 0 <= b < c < |bs| && k in bs[c] ==> Full(bs[b], size) || Blocks(bs[b], eps, k)
  }

  ghost predicate Packed(eps: seq<string>, idx: seq<nat>, size: nat, bs: seq<seq<nat>>) {
    (forall b :: 0 <= b < |bs| ==> GoodBatch(eps, size, bs[b])) && Partition(idx, bs) && Greedy(eps, size, bs)
  }

  lemma PlaceElems(bs: seq<seq<nat>>, b: nat, i: nat)
    requires b <= |bs|
    ensures var p := Place(bs, b, i);
            && b < |p| && |bs| <= |p| && (forall c :: 0 <= c < |p| && c != b ==> c < |bs| && p[c] == bs[c])
            && p[b] == (if b < |bs| then bs[b] + [i] else [i])
  {
  }

  lemma {:induction false} PlanPacked(eps: seq<string>, idx: seq<nat>, size: nat)
    requires Indices(idx, |eps|) && Ascending(idx)
    ensures Packed(eps, idx, size, Plan(eps, idx, size))
  {
    if idx != [] {
      var init, i := idx[..|idx| - 1], idx[|idx| - 1];
      PlanPacked(eps, init, size);
      var bs := Plan(eps, init, size);
      assert idx == init + [i];
      forall k | k in init ensures k < i { }
      PlacePacked(eps, init, size, bs, i, FirstFit(bs, 0, size, eps, i));
    }
  }

  // Where an item goes: the first batch that takes it, or a new one.
  ghost predicate Chosen(eps: seq<string>, init: seq<nat>, size: nat, bs: seq<seq<nat>>, i: nat, b: nat) {
    && Packed(eps, init, size, bs) && i < |eps| && (forall k :: k in init ==> k < i)
    && b <= |bs| && (b < |bs| ==> Fits(bs[b], size, eps, i)) && (forall c :: 0 <= c < b ==> !Fits(bs[c], size, eps, i))
  }

  lemma PlacedEarlier(eps: seq<string>, init: seq<nat>, size: nat, bs: seq<seq<nat>>, i: nat, b: nat, c: nat, k: nat)
    requires Chosen(eps, init, size, bs, i, b) && c < |bs| && k in bs[c]
    ensures k in init && k < i
  {
    assert InSome(bs, k);
  }

  lemma PlacePartition(eps: seq<string>, init: seq<nat>, size: nat, bs: seq<seq<nat>>, i: nat, b: nat)
    requires Chosen(eps, init, size, bs, i, b)
    ensures Partition(init + [i], Place(bs, b, i))
  {
    hide Place, GoodBatch, Greedy, Fits;
    var p := Place(bs, b, i);
    PlaceElems(bs, b, i);
    forall c, k | 0 <= c < |bs| && k in bs[c]
      ensures k in init && k != i
    {
      PlacedEarlier(eps, init, size, bs, i, b, c, k);
    }
    forall k ensures k in init + [i] <==> InSome(p, k) {
      if k in init {
        assert InSome(bs, k);
        var c :| 0 <= c < |bs| && k in bs[c];
        assert k in p[c];
      }
      if k == i { assert i in p[b]; }
    }
    forall c | 0 <= c < |bs| ensures i !in bs[c] {
      if i in bs[c] { PlacedEarlier(eps, init, size, bs, i, b, c, i); }
    }
    assert forall c :: 0 <= c < |p| && c != b ==> i !in p[c];
    assert forall c, k :: 0 <= c < |p| && k in p[c] && k != i ==> c < |bs| && k in bs[c];
  }

  lemma PlaceGreedy(eps: seq<string>, init: seq<nat>, size: nat, bs: seq<seq<nat>>, i: nat, b: nat)
    requires Chosen(eps, init, size, bs, i, b)
    ensures Greedy(eps, size, Place(bs, b, i))
  {
    var p := Place(bs, b, i);
    PlaceElems(bs, b, i);
    hide Place, GoodBatch, NoClash, Ascending;
    forall c, d, k | 0 <= c < d < |p| && k in p[d] ensures Full(p[c], size) || Blocks(p[c], eps, k) {
      if d < |bs| && k in bs[d] {
        assert Full(bs[c], size) || Blocks(bs[c], eps, k);
        if Blocks(bs[c], eps, k) {
          var x :| x in bs[c] && x < k < |eps| && eps[x] == eps[k] && eps[x] != "";
          assert x in p[c];
        }
      } else {
        assert d == b && k == i && p[c] == bs[c] && !Fits(bs[c], size, eps, i);
        if |bs[c]| < size {
          assert eps[i] in Endpoints(bs[c], eps);
          var x :| x in bs[c] && x < |eps| && eps[x] != "" && eps[x] == eps[i];
          PlacedEarlier(eps, init, size, bs, i, b, c, x);
        }
      }
    }
  }

  lemma PlacePacked(eps: seq<string>, init: seq<nat>, size: nat, bs: seq<seq<nat>>, i: nat, b: nat)
    requires Chosen(eps, init, size, bs, i, b)
    ensures Packed(eps, init + [i], size, Place(bs, b, i))
  {
    PlaceElems(bs, b, i);
    PlacePartition(eps, init, size, bs, i, b);
    PlaceGreedy(eps, init, size, bs, i, b);
    hide Place, Partition, Greedy;
    var batch := if b < |bs| then bs[b] else [];
    forall k | k in batch ensures k < i { PlacedEarlier(eps, init, size, bs, i, b, b, k); }
    assert b < |bs| ==> GoodBatch(eps, size, bs[b]);
    PlacedBatch(eps, size, batch, i);
    assert [] + [i] == [i];
  }

  lemma PlacedBatch(eps: seq<string>, size: nat, batch: seq<nat>, i: nat)
    requires i < |eps| && Ascending(batch) && NoClash(batch, eps) && (forall k :: k in batch ==> k < i)
    requires batch != [] ==> Fits(batch, size, eps, i)
    ensures Ascending(batch + [i]) && NoClash(batch + [i], eps)
  {
    forall x | x in batch && x < |eps| ensures eps[x] == "" || eps[x] in Endpoints(batch, eps) { }
    var p := batch + [i];
    forall a, c | 0 <= a < c < |p| ensures p[a] < p[c] {
      assert p[a] in batch;
    }
  }

  // ---- probing a batch ----------------------------------------------------------------

  datatype Answer = Up | Down(error: string)

  // Untested, measured by the n-th instance, or blamed.
  datatype Res = Untested | MeasuredBy(run: nat) | Failed(error: string)

  datatype Run = Run(items: seq<nat>, up: bool)

  // How the n-th instance started, with these items, comes up.
  type Oracle = (nat, seq<nat>) -> Answer

  datatype State = State(out: seq<Res>, runs: seq<Run>)

  function AfterRun(o: Oracle, st: State, idx: seq<nat>): State {
    var up := o(|st.runs|, idx).Up?;
    State(if up then
            seq(|st.out|, j requires 0 <= j < |st.out| => if j in idx then MeasuredBy(|st.runs|) else st.out[j])
          else st.out,
          st.runs + [Run(idx, up)])
  }

  // cancelled: whether the request was cancelled by the time the n-th instance ended.
  function Probe(o: Oracle, cancelled: nat -> bool, st: State, idx: seq<nat>): (r: State)
    requires Indices(idx, |st.out|)
    ensures |r.out| == |st.out|
    decreases |idx|
  {
    if idx == [] then st
    else
      var a, after := o(|st.runs|, idx), AfterRun(o, st, idx);
      if a.Up? || cancelled(|st.runs|) then after
      else if |idx| == 1 then after.(out := after.out[idx[0] := Failed(a.error)])
      else
        var half := |idx| / 2;
        Probe(o, cancelled, Probe(o, cancelled, after, idx[..half]), idx[half..])
  }

  // The batches one after another, until the request is cancelled.
  function ProbeEach(o: Oracle, cancelled: nat -> bool, st: State, bs: seq<seq<nat>>): State
    requires forall b :: 0 <= b < |bs| ==> Indices(bs[b], |st.out|)
    decreases |bs|
  {
    if bs == [] then st
    else
      var after := Probe(o, cancelled, st, bs[0]);
      if |after.runs| > 0 && cancelled(|after.runs| - 1) then after else ProbeEach(o, cancelled, after, bs[1..])
  }

  class Prober {
    const oracle: Oracle
    const cancelled: nat -> bool
    const out: array<Res>
    var runs: seq<Run>

    constructor (o: Oracle, c: nat -> bool, n: nat)
      ensures oracle == o && cancelled == c && runs == [] && fresh(out)
      ensures out.Length == n && forall j :: 0 <= j < n ==> out[j] == Untested
    {
      oracle, cancelled, runs := o, c, [];
      out := new Res[n](_ => Untested);
    }

    ghost function Now(): State
      reads this, out
    {
      State(out[..], runs)
    }

    // One instance over the given items: every item of it is measured, or none.
    method RunBatch(idx: seq<nat>) returns (a: Answer)
      requires Indices(idx, out.Length)
      modifies this`runs, out
      ensures a == oracle(|old(runs)|, idx) && Now() == AfterRun(oracle, old(Now()), idx)
    {
      a := oracle(|runs|, idx);
      if a.Up? {
        for k := 0 to |idx|
          invariant runs == old(runs)
          invariant forall j :: 0 <= j < out.Length ==>
                      out[j] == if j in idx[..k] then MeasuredBy(|runs|) else old(out[j])
        {
          out[idx[k]] := MeasuredBy(|runs|);
        }
        assert idx[..|idx|] == idx;
      }
      runs := runs + [Run(idx, a.Up?)];
    }

    method ProbeItems(idx: seq<nat>)
      requires Indices(idx, out.Length)
      modifies this`runs, out
      ensures Now() == Probe(oracle, cancelled, old(Now()), idx)
      decreases |idx|
    {
      if idx == [] { return; }
      var n := |runs|;
      var a := RunBatch(idx);
      if a.Up? || cancelled(n) { return; }
      if |idx| == 1 {
        out[idx[0]] := Failed(a.error);
        return;
      }
      var half := |idx| / 2;
      ProbeItems(idx[..half]);
      ProbeItems(idx[half..]);
    }

    method ProbeBatches(bs: seq<seq<nat>>)
      requires forall b :: 0 <= b < |bs| ==> Indices(bs[b], out.Length)
      modifies this`runs, out
      ensures Now() == ProbeEach(oracle, cancelled, old(Now()), bs)
    {
      hide Probe;
      for i := 0 to |bs|
        invariant ProbeEach(oracle, cancelled, Now(), bs[i..]) == ProbeEach(oracle, cancelled, old(Now()), bs)
      {
        assert bs[i..][1..] == bs[i + 1..];
        ProbeItems(bs[i]);
        if |runs| > 0 && cancelled(|runs| - 1) { return; }
      }
      assert bs[|bs|..] == [];
    }
  }

  // ---- what a probe leaves ------------------------------------------------------------------

  // The verdict on an item over the instances from..: measured by the one that
  // came up with it, or blamed by an instance of its own.
  ghost predicate Judged(o: Oracle, st: State, from: nat, j: nat)
    requires j < |st.out|
  {
    match st.out[j]
    case Untested => false
    case MeasuredBy(r) =>
      && from <= r < |st.runs| && st.runs[r].up && j in st.runs[r].items
      && forall q :: from <= q < |st.runs| && st.runs[q].up && j in st.runs[q].items ==> q == r
    case Failed(e) =>
      && (exists r :: from <= r < |st.runs| && st.runs[r] == Run([j], false) && o(r, [j]) == Down(e))
      && forall q :: from <= q < |st.runs| && st.runs[q].up ==> j !in st.runs[q].items
  }

  ghost predicate IsPart(s: seq<nat>, idx: seq<nat>) {
    exists a, b :: 0 <= a <= b <= |idx| && s == idx[a..b]
  }

  ghost predicate Within(st: State, from: nat, idx: seq<nat>) {
    forall r :: from <= r < |st.runs| ==> IsPart(st.runs[r].items, idx)
  }

  ghost predicate Extends(st: State, st': State, idx: seq<nat>) {
    && st.runs <= st'.runs && |st.out| == |st'.out|
    && forall j :: 0 <= j < |st.out| && j !in idx ==> st'.out[j] == st.out[j]
  }

  // Every instance that failed did so for the reason the oracle gave.
  ghost predicate Faithful(o: Oracle, st: State, from: nat) {
    forall r :: from <= r < |st.runs| ==> st.runs[r].up == o(r, st.runs[r].items).Up?
  }

  lemma WithinElems(st: State, from: nat, idx: seq<nat>)
    requires Within(st, from, idx)
    ensures forall r, j :: from <= r < |st.runs| && j in st.runs[r].items ==> j in idx
  {
    forall r, j | from <= r < |st.runs| && j in st.runs[r].items ensures j in idx {
      assert IsPart(st.runs[r].items, idx);
    }
  }

  // A verdict stands whatever later instances do without the item, and counts
  // over earlier ones that did not come up with it.
  lemma JudgedLater(o: Oracle, st: State, st': State, from: nat, from': nat, j: nat)
    requires j < |st.out| && |st.out| == |st'.out| && from' <= from <= |st.runs| && st.runs <= st'.runs
    requires Judged(o, st, from, j) && st'.out[j] == st.out[j]
    requires forall r :: from' <= r < from && st.runs[r].up ==> j !in st.runs[r].items
    requires forall r :: |st.runs| <= r < |st'.runs| ==> j !in st'.runs[r].items
    ensures Judged(o, st', from', j)
  {
    forall q | from' <= q < |st'.runs| && st'.runs[q].up && j in st'.runs[q].items
      ensures from <= q < |st.runs| && st.runs[q] == st'.runs[q]
    {
    }
    if st.out[j].Failed? {
      var r :| from <= r < |st.runs| && st.runs[r] == Run([j], false) && o(r, [j]) == Down(st.out[j].error);
      assert st'.runs[r] == st.runs[r];
    }
  }

  lemma WithinHalf(st: State, from: nat, idx: seq<nat>, lo: nat, hi: nat)
    requires lo <= hi <= |idx| && Within(st, from, idx[lo..hi])
    ensures Within(st, from, idx)
  {
    forall r | from <= r < |st.runs| ensures IsPart(st.runs[r].items, idx) {
      assert IsPart(st.runs[r].items, idx[lo..hi]);
      var a, b :| 0 <= a <= b <= |idx[lo..hi]| && st.runs[r].items == idx[lo..hi][a..b];
      SliceSlice(idx, lo, hi, a, b);
    }
  }

  lemma SliceSlice(idx: seq<nat>, lo: nat, hi: nat, a: nat, b: nat)
    requires lo <= hi <= |idx| && a <= b <= hi - lo
    ensures IsPart(idx[lo..hi][a..b], idx)
  {
    var s := idx[lo..hi];
    forall k | 0 <= k < b - a
      ensures s[a..b][k] == idx[lo + a..lo + b][k]
    {
      assert s[a..b][k] == s[a + k] == idx[lo + (a + k)];
    }
    assert s[a..b] == idx[lo + a..lo + b];
  }

  lemma WholeIsPart(idx: seq<nat>)
    ensures IsPart(idx, idx)
  {
    assert idx[0..|idx|] == idx;
  }

  // The parts tried before, by and after the first half.
  lemma WithinJoined(st: State, st': State, from: nat, idx: seq<nat>)
    requires from < |st.runs| && st.runs <= st'.runs && st.runs[from].items == idx
    requires Within(st, from + 1, idx) && Within(st', |st.runs|, idx)
    ensures Within(st', from, idx)
  {
    hide IsPart;
    WholeIsPart(idx);
    forall r | from <= r < |st'.runs| ensures IsPart(st'.runs[r].items, idx) {
      if r < |st.runs| { assert st'.runs[r] == st.runs[r]; }
    }
  }

  lemma DownState(o: Oracle, st: State, idx: seq<nat>)
    requires o(|st.runs|, idx).Down?
    ensures AfterRun(o, st, idx) == State(st.out, st.runs + [Run(idx, false)])
  {
  }

  lemma UpJudges(o: Oracle, st: State, idx: seq<nat>)
    requires Indices(idx, |st.out|) && o(|st.runs|, idx).Up?
    ensures var st' := AfterRun(o, st, idx);
            && Extends(st, st', idx) && Within(st', |st.runs|, idx) && Faithful(o, st', |st.runs|)
            && forall j :: j in idx ==> Judged(o, st', |st.runs|, j)
  {
    WholeIsPart(idx);
    hide IsPart;
    var from, st' := |st.runs|, AfterRun(o, st, idx);
    assert st'.runs == st.runs + [Run(idx, true)] && st'.runs[from] == Run(idx, true);
    forall j | 0 <= j < |st.out| ensures st'.out[j] == if j in idx then MeasuredBy(from) else st.out[j] { }
    forall j | j in idx ensures j < |st.out| { }
    hide AfterRun;
    assert Within(st', from, idx) && Faithful(o, st', from);
  }

  lemma BlameJudges(o: Oracle, st: State, idx: seq<nat>, error: string)
    requires Indices(idx, |st.out|) && |idx| == 1 && o(|st.runs|, idx) == Down(error)
    ensures var after := AfterRun(o, st, idx);
            var st' := after.(out := after.out[idx[0] := Failed(error)]);
            && Extends(st, st', idx) && Within(st', |st.runs|, idx) && Faithful(o, st', |st.runs|)
            && forall j :: j in idx ==> Judged(o, st', |st.runs|, j)
  {
    WholeIsPart(idx);
    hide IsPart;
    assert idx == [idx[0]];
    assert AfterRun(o, st, idx).runs[|st.runs|] == Run([idx[0]], false);
  }

  // However instances come up: halving ends, tries only parts of the batch,
  // touches no other item, and every item ends measured by exactly one
  // instance that came up or blamed with the error of its own.
  lemma {:induction false} ProbeJudges(o: Oracle, cancelled: nat -> bool, st: State, idx: seq<nat>)
    requires Indices(idx, |st.out|) && Ascending(idx) && forall n :: !cancelled(n)
    ensures var st' := Probe(o, cancelled, st, idx);
            && Extends(st, st', idx) && Within(st', |st.runs|, idx) && Faithful(o, st', |st.runs|)
            && forall j :: j in idx ==> Judged(o, st', |st.runs|, j)
    decreases |idx|
  {
    var from, st' := |st.runs|, Probe(o, cancelled, st, idx);
    if idx != [] {
      var after := AfterRun(o, st, idx);
      WholeIsPart(idx);
      assert after.runs[from] == Run(idx, o(from, idx).Up?);
      if o(from, idx).Up? {
        UpJudges(o, st, idx);
      } else if |idx| == 1 {
        BlameJudges(o, st, idx, o(from, idx).error);
      } else {
        hide Judged, IsPart, Faithful, Within, Extends, AfterRun;
        var half := |idx| / 2;
        var l, r := idx[..half], idx[half..];
        assert after == State(st.out, st.runs + [Run(idx, false)]) by { DownState(o, st, idx); }
        var mid := Probe(o, cancelled, after, l);
        ProbeJudges(o, cancelled, after, l);
        ProbeJudges(o, cancelled, mid, r);
        HalvesJudged(o, st, after, mid, st', idx, half);
      }
    }
  }

  lemma HalvesJudged(o: Oracle, st: State, after: State, mid: State, st': State, idx: seq<nat>, half: nat)
    requires Ascending(idx) && half <= |idx| && Indices(idx, |st.out|)
    requires after == State(st.out, st.runs + [Run(idx, false)]) && o(|st.runs|, idx).Down?
    requires Extends(after, mid, idx[..half]) && Within(mid, |after.runs|, idx[..half]) &&
             Faithful(o, mid, |after.runs|)
    requires Extends(mid, st', idx[half..]) && Within(st', |mid.runs|, idx[half..]) && Faithful(o, st', |mid.runs|)
    requires forall j :: j in idx[..half] ==> Judged(o, mid, |after.runs|, j)
    requires forall j :: j in idx[half..] ==> Judged(o, st', |mid.runs|, j)
    ensures Extends(st, st', idx) && Within(st', |st.runs|, idx) && Faithful(o, st', |st.runs|)
    ensures forall j :: j in idx ==> Judged(o, st', |st.runs|, j)
  {
    var l, r, from := idx[..half], idx[half..], |st.runs|;
    assert idx == l + r && idx[0..half] == l && idx[half..|idx|] == r;
    assert after.runs[from] == Run(idx, false) && mid.runs[from] == after.runs[from];
    hide Judged, IsPart;
    WithinElems(mid, from + 1, l);
    WithinElems(st', |mid.runs|, r);
    WithinHalf(mid, from + 1, idx, 0, half);
    WithinHalf(st', |mid.runs|, idx, half, |idx|);
    WithinJoined(mid, st', from, idx);
    hide Within;
    forall q | from <= q < |st'.runs| ensures st'.runs[q].up == o(q, st'.runs[q].items).Up? {
      if q < |mid.runs| { assert st'.runs[q] == mid.runs[q]; }
    }
    forall j | j in idx ensures Judged(o, st', from, j) {
      HalfJudged(o, from, mid, st', idx, half, j);
    }
  }

  lemma HalfJudged(o: Oracle, from: nat, mid: State, st': State, idx: seq<nat>, half: nat, j: nat)
    requires Ascending(idx) && half <= |idx| && Indices(idx, |mid.out|) && j in idx
    requires from < |mid.runs| && mid.runs[from] == Run(idx, false) && Extends(mid, st', idx[half..])
    requires forall q, k :: from < q < |mid.runs| && k in mid.runs[q].items ==> k in idx[..half]
    requires forall q, k :: |mid.runs| <= q < |st'.runs| && k in st'.runs[q].items ==> k in idx[half..]
    requires forall k :: k in idx[..half] ==> Judged(o, mid, from + 1, k)
    requires forall k :: k in idx[half..] ==> Judged(o, st', |mid.runs|, k)
    ensures Judged(o, st', from, j)
  {
    var l, r := idx[..half], idx[half..];
    assert idx == l + r;
    hide Judged;
    if j in l {
      assert j !in r;
      JudgedLater(o, mid, st', from + 1, from, j);
    } else {
      forall q | from <= q < |mid.runs| && st'.runs[q].up
        ensures j !in st'.runs[q].items
      {
        assert st'.runs[q] == mid.runs[q];
      }
      JudgedLater(o, st', st', |mid.runs|, from, j);
    }
  }

  // When an instance comes up exactly without a bad item, the bad items are
  // the ones blamed, each with the error of its own instance.
  lemma BadAreBlamed(o: Oracle, cancelled: nat -> bool, st: State, idx: seq<nat>, bad: set<nat>, j: nat)
    requires Indices(idx, |st.out|) && Ascending(idx) && (forall n :: !cancelled(n)) && j in idx
    requires forall n, b :: o(n, b).Down? <==> exists k :: k in b && k in bad
    ensures var res := Probe(o, cancelled, st, idx).out[j];
            if j in bad then res.Failed? && exists n :: o(n, [j]) == Down(res.error) else res.MeasuredBy?
  {
    ProbeJudges(o, cancelled, st, idx);
    var st' := Probe(o, cancelled, st, idx);
    assert Judged(o, st', |st.runs|, j);
    assert o(0, [j]).Down? <==> j in bad;
    if st'.out[j].Failed? {
      var r :| |st.runs| <= r < |st'.runs| && st'.runs[r] == Run([j], false) && o(r, [j]) == Down(st'.out[j].error);
      var k :| k in [j] && k in bad;
    } else {
      var r := st'.out[j].run;
      assert st'.runs[r].up == o(r, st'.runs[r].items).Up?;
    }
  }

  // ---- a whole request ------------------------------------------------------------------

  // An item's outbound parses or not; the hysteria endpoint it dials first, if any.
  datatype Item = Item(readable: bool, endpoint: string)

  function Testable(items: seq<Item>): seq<nat> {
    if items == [] then []
    else Testable(items[..|items| - 1]) + if items[|items| - 1].readable then [|items| - 1] else []
  }

  function EndpointsOf(items: seq<Item>): seq<string> {
    seq(|items|, i requires 0 <= i < |items| => items[i].endpoint)
  }

  function BatchSize(asked: int): nat {
    if asked <= 0 then DEFAULT_PROBE_BATCH else asked
  }

  lemma {:induction false} TestableIs(items: seq<Item>)
    ensures Ascending(Testable(items)) && Indices(Testable(items), |items|)
    ensures forall i :: i in Testable(items) <==> 0 <= i < |items| && items[i].readable
  {
    if items != [] {
      var init := items[..|items| - 1];
      TestableIs(init);
      forall i ensures i in Testable(items) <==> 0 <= i < |items| && items[i].readable {
        if 0 <= i < |init| { assert init[i] == items[i]; }
      }
      var t, t0 := Testable(items), Testable(init);
      forall a, b | 0 <= a < b < |t| ensures t[a] < t[b] { assert t0[..] == t0; }
    }
  }

  lemma PlanIndices(eps: seq<string>, idx: seq<nat>, size: nat)
    requires Indices(idx, |eps|) && Packed(eps, idx, size, Plan(eps, idx, size))
    ensures forall b :: 0 <= b < |Plan(eps, idx, size)| ==> Indices(Plan(eps, idx, size)[b], |eps|)
  {
    var bs := Plan(eps, idx, size);
    forall b, k | 0 <= b < |bs| && 0 <= k < |bs[b]| ensures bs[b][k] < |eps| {
      assert bs[b][k] in bs[b];
      assert InSome(bs, bs[b][k]);
    }
  }

  ghost predicate PartOfSome(s: seq<nat>, bs: seq<seq<nat>>) {
    exists b :: 0 <= b < |bs| && IsPart(s, bs[b])
  }

  lemma PartElems(s: seq<nat>, bs: seq<seq<nat>>, j: nat)
    requires PartOfSome(s, bs) && j in s
    ensures InSome(bs, j)
  {
    var b :| 0 <= b < |bs| && IsPart(s, bs[b]);
    var x, y :| 0 <= x <= y <= |bs[b]| && s == bs[b][x..y];
    assert j in bs[b];
  }

  ghost predicate Apart(bs: seq<seq<nat>>) {
    forall b, c, k :: 0 <= b < |bs| && 0 <= c < |bs| && k in bs[b] && k in bs[c] ==> b == c
  }

  // A request that is not cancelled judges every item of every batch once.
  lemma {:induction false} EachJudged(o: Oracle, cancelled: nat -> bool, st: State, bs: seq<seq<nat>>)
    requires forall b :: 0 <= b < |bs| ==> Indices(bs[b], |st.out|) && Ascending(bs[b])
    requires Apart(bs) && forall n :: !cancelled(n)
    ensures var st' := ProbeEach(o, cancelled, st, bs);
            && st.runs <= st'.runs && |st.out| == |st'.out|
            && (forall j :: 0 <= j < |st.out| && !InSome(bs, j) ==> st'.out[j] == st.out[j])
            && (forall r :: |st.runs| <= r < |st'.runs| ==> PartOfSome(st'.runs[r].items, bs))
            && (forall j: nat :: InSome(bs, j) && j < |st.out| ==> Judged(o, st', |st.runs|, j))
    decreases |bs|
  {
    if bs != [] {
      var first, rest := bs[0], bs[1..];
      var after := Probe(o, cancelled, st, first);
      ProbeJudges(o, cancelled, st, first);
      assert Apart(rest) by {
        forall b, c, k | 0 <= b < |rest| && 0 <= c < |rest| && k in rest[b] && k in rest[c] ensures b == c {
          assert rest[b] == bs[b + 1] && rest[c] == bs[c + 1];
        }
      }
      EachJudged(o, cancelled, after, rest);
      var st' := ProbeEach(o, cancelled, after, rest);
      assert st' == ProbeEach(o, cancelled, st, bs);
      FirstAndRest(o, st, after, st', bs);
    }
  }

  lemma FirstAndRest(o: Oracle, st: State, after: State, st': State, bs: seq<seq<nat>>)
    requires bs != [] && Apart(bs) && Indices(bs[0], |st.out|)
    requires Extends(st, after, bs[0]) && Within(after, |st.runs|, bs[0])
    requires forall j :: j in bs[0] ==> Judged(o, after, |st.runs|, j)
    requires after.runs <= st'.runs && |after.out| == |st'.out|
    requires forall j :: 0 <= j < |st.out| && !InSome(bs[1..], j) ==> st'.out[j] == after.out[j]
    requires forall r :: |after.runs| <= r < |st'.runs| ==> PartOfSome(st'.runs[r].items, bs[1..])
    requires forall j: nat :: InSome(bs[1..], j) && j < |st.out| ==> Judged(o, st', |after.runs|, j)
    ensures st.runs <= st'.runs && |st.out| == |st'.out|
    ensures forall j :: 0 <= j < |st.out| && !InSome(bs, j) ==> st'.out[j] == st.out[j]
    ensures forall r :: |st.runs| <= r < |st'.runs| ==> PartOfSome(st'.runs[r].items, bs)
    ensures forall j: nat :: InSome(bs, j) && j < |st.out| ==> Judged(o, st', |st.runs|, j)
  {
    hide Judged, IsPart;
    var first, rest := bs[0], bs[1..];
    assert forall b :: 0 <= b < |rest| ==> rest[b] == bs[b + 1];
    WithinElems(after, |st.runs|, first);
    forall j: nat | InSome(rest, j) ensures InSome(bs, j) && j !in first {
      var b :| 0 <= b < |rest| && j in rest[b];
      assert j in bs[b + 1];
    }
    forall r | |st.runs| <= r < |st'.runs| ensures PartOfSome(st'.runs[r].items, bs) {
      if r < |after.runs| {
        assert st'.runs[r] == after.runs[r] && IsPart(after.runs[r].items, bs[0]);
      } else {
        var b :| 0 <= b < |rest| && IsPart(st'.runs[r].items, rest[b]);
        assert IsPart(st'.runs[r].items, bs[b + 1]);
      }
    }
    forall j | j in first ensures InSome(bs, j) { }
    forall j: nat | InSome(bs, j) && j < |st.out| ensures Judged(o, st', |st.runs|, j) {
      if j in first {
        forall r | |after.runs| <= r < |st'.runs| ensures j !in st'.runs[r].items {
          if j in st'.runs[r].items { PartElems(st'.runs[r].items, rest, j); }
        }
        JudgedLater(o, after, st', |st.runs|, |st.runs|, j);
      } else {
        var b :| 0 <= b < |bs| && j in bs[b];
        assert j in rest[b - 1];
        forall r | |st.runs| <= r < |after.runs|
          ensures j !in st'.runs[r].items
        {
          assert st'.runs[r] == after.runs[r];
        }
        JudgedLater(o, st', st', |after.runs|, |st.runs|, j);
      }
    }
  }

  // The results before any instance is started: unreadable items fail at once.
  function Upfront(items: seq<Item>): seq<Res> {
    seq(|items|, i requires 0 <= i < |items| => if items[i].readable then Untested else Failed("bad outbound json"))
  }

  lemma PartKeeps(s: seq<nat>, batch: seq<nat>, eps: seq<string>, size: nat)
    requires IsPart(s, batch) && GoodBatch(eps, size, batch)
    ensures Ascending(s) && NoClash(s, eps) && (|s| <= size || |s| <= 1)
  {
    var a, b :| 0 <= a <= b <= |batch| && s == batch[a..b];
    assert forall k :: 0 <= k < |s| ==> s[k] == batch[a + k];
    assert forall x :: x in s ==> x in batch;
    hide IsPart;
  }

  // A request that runs to its end: an unreadable item fails with that error; a
  // readable one is measured by exactly one instance or fails with the error of
  // an instance of its own; and no instance is longer than a batch, or holds
  // two items with one hysteria endpoint.
  lemma RequestJudges(o: Oracle, cancelled: nat -> bool, items: seq<Item>, asked: int)
    requires forall n :: !cancelled(n)
    ensures var eps, size := EndpointsOf(items), BatchSize(asked);
            Indices(Testable(items), |eps|) &&
            var bs := Plan(eps, Testable(items), size);
            (forall b :: 0 <= b < |bs| ==> Indices(bs[b], |items|)) &&
            var st := ProbeEach(o, cancelled, State(Upfront(items), []), bs);
            && |st.out| == |items|
            && (forall i :: 0 <= i < |items| ==>
                  if items[i].readable then Judged(o, st, 0, i) else st.out[i] == Failed("bad outbound json"))
            && (forall r :: 0 <= r < |st.runs| ==> NoClash(st.runs[r].items, eps) && |st.runs[r].items| <= size)
  {
    var eps, size, idx := EndpointsOf(items), BatchSize(asked), Testable(items);
    TestableIs(items);
    PlanPacked(eps, idx, size);
    PlanIndices(eps, idx, size);
    var bs, st0 := Plan(eps, idx, size), State(Upfront(items), []);
    assert forall b :: 0 <= b < |bs| ==> GoodBatch(eps, size, bs[b]);
    EachJudged(o, cancelled, st0, bs);
    var st := ProbeEach(o, cancelled, st0, bs);
    forall i | 0 <= i < |items|
      ensures if items[i].readable then Judged(o, st, 0, i) else st.out[i] == Failed("bad outbound json")
    {
      assert i in idx <==> InSome(bs, i);
    }
    forall r | 0 <= r < |st.runs| ensures NoClash(st.runs[r].items, eps) && |st.runs[r].items| <= size {
      assert PartOfSome(st.runs[r].items, bs);
      var b :| 0 <= b < |bs| && IsPart(st.runs[r].items, bs[b]);
      PartKeeps(st.runs[r].items, bs[b], eps, size);
    }
  }
}
