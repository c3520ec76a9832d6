// Slot indices: every pool keeps the one it had, newcomers take the lowest free
// one (daemon/xray.go: assignSlotIndices).
module SlotAlloc {
  import opened Wrappers
  import opened Sorting
  import opened XrayConfig

  type Indices = map<string, nat>

  datatype Placed = Placed(key: string, index: nat)

  // The first index from next on that is free.
  function NextFree(used: set<nat>, next: nat): (n: nat)
    ensures next <= n && (n < SLOT_COUNT ==> n !in used)
    ensures forall i :: next <= i < n ==> i in used
    decreases SLOT_COUNT - next
  {
    if next < SLOT_COUNT && next in used then NextFree(used, next + 1) else next
  }

  // First pass: pools keep the index of the previous reconcile.
  function KeepIndices(prev: Indices, keys: seq<string>): Indices {
    if keys == [] then map[]
    else
      var m, k := KeepIndices(prev, keys[..|keys| - 1]), keys[|keys| - 1];
      if k in prev && prev[k] < SLOT_COUNT && prev[k] !in m.Values then m[k := prev[k]] else m
  }

  // Second pass: the others, in order, take the lowest free index, while there is one.
  function FillIndices(kept: Indices, keys: seq<string>): (Indices, nat) {
    if keys == [] then (kept, 0)
    else
      var (m, next) := FillIndices(kept, keys[..|keys| - 1]);
      var k := keys[|keys| - 1];
      if k in kept then (m, next)
      else
        var n := NextFree(m.Values, next);
        if n >= SLOT_COUNT then (m, n) else (m[k := n], n)
  }

  function Assigned(prev: Indices, keys: seq<string>): Indices {
    FillIndices(KeepIndices(prev, keys), keys).0
  }

  // ---- the invariant ---------------------------------------------------------------

  ghost predicate Injective(m: Indices) {
    forall a, b :: a in m && b in m && m[a] == m[b] ==> a == b
  }

  ghost predicate Valid(m: Indices) {
    Injective(m) && forall k :: k in m ==> m[k] < SLOT_COUNT
  }

  lemma ValuesSnoc(m: Indices, k: string, n: nat)
    requires k !in m
    ensures m[k := n].Values == m.Values + {n}
  {
    var a := m[k := n];
    forall v | v in m.Values ensures v in a.Values {
      var j :| j in m && m[j] == v;
      assert a[j] == v;
    }
    assert a[k] == n;
    forall v | v in a.Values ensures v in m.Values + {n} {
      var j :| j in a && a[j] == v;
      if j != k { assert m[j] == v; }
    }
  }

  lemma {:induction false} KeptAre(prev: Indices, keys: seq<string>)
    requires Valid(prev) && Distinct(keys)
    ensures var m := KeepIndices(prev, keys);
            Valid(m) && forall k :: k in m <==> k in keys && k in prev
    ensures forall k :: k in KeepIndices(prev, keys) ==> KeepIndices(prev, keys)[k] == prev[k]
  {
    if keys != [] {
      var init, k := keys[..|keys| - 1], keys[|keys| - 1];
      KeptAre(prev, init);
      assert keys == init + [k];
      var m := KeepIndices(prev, init);
      assert k !in init && k !in m;
      forall j | j in m && k in prev ensures m[j] != prev[k] { assert m[j] == prev[j]; }
    }
  }

  ghost predicate AllUsed(m: Indices) {
    forall i: nat :: i < SLOT_COUNT ==> i in m.Values
  }

  // A key that comes before another in the list.
  ghost predicate Earlier(keys: seq<string>, a: string, b: string) {
    exists i, j :: 0 <= i < j < |keys| && keys[i] == a && keys[j] == b
  }

  // Index i was taken when k was placed: by a pool that kept it or came before k.
  ghost predicate TakenBefore(kept: Indices, m: Indices, keys: seq<string>, i: nat, k: string) {
    exists a :: a in m && m[a] == i && (a in kept || Earlier(keys, a, k))
  }

  ghost predicate Filled(kept: Indices, keys: seq<string>, m: Indices, next: nat) {
    && Valid(m) && (forall k :: k in kept ==> k in m && m[k] == kept[k])
    && (forall k :: k in m ==> k in kept || k in keys)
    && (forall i: nat :: i < next && i < SLOT_COUNT ==> i in m.Values)
    && (forall k :: k in keys && k !in m ==> AllUsed(m))
    && (forall k, i: nat :: k in m && k !in kept && i < m[k] ==> TakenBefore(kept, m, keys, i, k))
  }

  lemma {:induction false} FillFilled(kept: Indices, keys: seq<string>)
    requires Valid(kept) && Distinct(keys)
    ensures var (m, next) := FillIndices(kept, keys); Filled(kept, keys, m, next)
  {
    if keys != [] {
      var init, k := keys[..|keys| - 1], keys[|keys| - 1];
      FillFilled(kept, init);
      var (m, next) := FillIndices(kept, init);
      assert keys == init + [k] && k !in init;
      FillStep(kept, init, m, next, k);
    }
  }

  lemma EarlierSnoc(keys: seq<string>, k: string)
    ensures forall a, b :: Earlier(keys, a, b) ==> Earlier(keys + [k], a, b)
    ensures forall a :: a in keys ==> Earlier(keys + [k], a, k)
  {
    var ks := keys + [k];
    forall a, b | Earlier(keys, a, b) ensures Earlier(ks, a, b) {
      var i, j :| 0 <= i < j < |keys| && keys[i] == a && keys[j] == b;
      assert ks[i] == a && ks[j] == b;
    }
    forall a | a in keys ensures Earlier(ks, a, k) {
      var i :| 0 <= i < |keys| && keys[i] == a;
      assert ks[i] == a && ks[|keys|] == k;
    }
  }

  lemma StillTaken(kept: Indices, m: Indices, keys: seq<string>, i: nat, b: string, k: string, m': Indices)
    requires TakenBefore(kept, m, keys, i, b)
    requires m' == m || (k !in m && k in m' && m' == m[k := m'[k]])
    ensures TakenBefore(kept, m', keys + [k], i, b)
  {
    EarlierSnoc(keys, k);
    var a :| a in m && m[a] == i && (a in kept || Earlier(keys, a, b));
    assert a in m' && m'[a] == i;
  }

  // What the next key does to the indices filled so far.
  function Placing(kept: Indices, m: Indices, next: nat, k: string): (Indices, nat) {
    var n := NextFree(m.Values, next);
    if k in kept then (m, next) else if n >= SLOT_COUNT then (m, n) else (m[k := n], n)
  }

  lemma FillStep(kept: Indices, init: seq<string>, m: Indices, next: nat, k: string)
    requires Valid(kept) && Filled(kept, init, m, next) && k !in init
    ensures var (m', next') := Placing(kept, m, next, k); Filled(kept, init + [k], m', next')
  {
    var (m', next') := Placing(kept, m, next, k);
    PlacingValid(kept, init, m, next, k);
    forall b, i: nat | b in m' && b !in kept && i < m'[b] ensures TakenBefore(kept, m', init + [k], i, b) {
      PlacingLowest(kept, init, m, next, k, b, i);
    }
  }

  lemma PlacingValid(kept: Indices, init: seq<string>, m: Indices, next: nat, k: string)
    requires Valid(kept) && Filled(kept, init, m, next) && k !in init
    ensures var (m', next') := Placing(kept, m, next, k);
            && Valid(m') && (forall j :: j in kept ==> j in m' && m'[j] == kept[j])
            && (forall i: nat :: i < next' && i < SLOT_COUNT ==> i in m'.Values)
            && (forall j :: j in init + [k] && j !in m' ==> AllUsed(m'))
  {
    hide TakenBefore;
    var n := NextFree(m.Values, next);
    assert k in m ==> k in kept;
    if k !in kept && n < SLOT_COUNT { ValuesSnoc(m, k, n); }
  }

  lemma PlacingLowest(kept: Indices, init: seq<string>, m: Indices, next: nat, k: string, b: string, i: nat)
    requires Valid(kept) && Filled(kept, init, m, next) && k !in init
    requires var (m', _) := Placing(kept, m, next, k); b in m' && b !in kept && i < m'[b]
    ensures TakenBefore(kept, Placing(kept, m, next, k).0, init + [k], i, b)
  {
    hide Earlier;
    var (m', _) := Placing(kept, m, next, k);
    assert k in m ==> k in kept;
    if b in m && b != k {
      StillTaken(kept, m, init, i, b, k, m');
    } else {
      EarlierSnoc(init, k);
      assert i in m.Values;
      var a :| a in m && m[a] == i;
      assert a in m' && m'[a] == i && (a in kept || a in init);
    }
  }

  // What a reconcile with distinct pools does to the indices: they are distinct
  // and below 32; every pool seen last time keeps its own; a newcomer gets the
  // lowest index not taken before it; one is left out only when all 32 are taken.
  lemma AssignedIs(prev: Indices, keys: seq<string>)
    requires Valid(prev) && Distinct(keys)
    ensures var m := Assigned(prev, keys);
            && Valid(m) && (forall k :: k in m ==> k in keys)
            && (forall k :: k in keys && k in prev ==> k in m && m[k] == prev[k])
            && (forall k :: k in keys && k !in m ==> AllUsed(m))
            && (forall k, i: nat :: k in m && k !in prev && i < m[k] ==>
                  TakenBefore(KeepIndices(prev, keys), m, keys, i, k))
            && |m| == Min(|keys|, SLOT_COUNT)
  {
    KeptAre(prev, keys);
    FillFilled(KeepIndices(prev, keys), keys);
    AssignedCount(Assigned(prev, keys), keys);
  }

  lemma {:induction false} InjectiveCount(m: Indices)
    requires Injective(m)
    ensures |m.Values| == |m.Keys|
    decreases |m.Keys|
  {
    if m.Keys == {} {
      assert m.Values == {};
    } else {
      var k :| k in m.Keys;
      var r := m - {k};
      WithoutKey(m, k);
      hide Injective;
      InjectiveCount(r);
      assert |m.Values| == |r.Values| + 1;
    }
  }

  lemma WithoutKey(m: Indices, k: string)
    requires Injective(m) && k in m
    ensures var r := m - {k};
            Injective(r) && |r.Keys| == |m.Keys| - 1 && m.Values == r.Values + {m[k]} && m[k] !in r.Values
  {
    var r := m - {k};
    assert m.Keys == r.Keys + {k};
    assert m == r[k := m[k]];
    ValuesSnoc(r, k, m[k]);
    forall j | j in r ensures r[j] != m[k] { assert r[j] == m[j]; }
  }

  function Below(n: nat): set<nat> {
    if n == 0 then {} else Below(n - 1) + {n - 1}
  }

  lemma {:induction false} BelowIs(n: nat)
    ensures |Below(n)| == n && forall i: nat :: i in Below(n) <==> i < n
  {
    if n > 0 { BelowIs(n - 1); }
  }

  lemma AssignedCount(m: Indices, keys: seq<string>)
    requires Valid(m) && Distinct(keys) && (forall k :: k in m ==> k in keys) &&
             (forall k :: k in keys && k !in m ==> AllUsed(m))
    ensures |m| == Min(|keys|, SLOT_COUNT)
  {
    var all := Below(SLOT_COUNT);
    BelowIs(SLOT_COUNT);
    InjectiveCount(m);
    CardDistinct(keys);
    CardMono(m.Keys, Elems(keys));
    assert m.Values <= all;
    CardMono(m.Values, all);
    if k :| k in keys && k !in m {
      assert m.Values == all;
    } else {
      assert m.Keys == Elems(keys);
    }
  }

  // ---- many reconciles ------------------------------------------------------------------

  // The indices after the first n reconciles.
  function IndicesAfter(runs: seq<seq<string>>, n: nat): Indices
    requires n <= |runs|
  {
    if n == 0 then map[] else Assigned(IndicesAfter(runs, n - 1), runs[n - 1])
  }

  ghost predicate DistinctRuns(runs: seq<seq<string>>) {
    forall i :: 0 <= i < |runs| ==> Distinct(runs[i])
  }

  lemma {:induction false} AlwaysValid(runs: seq<seq<string>>, n: nat)
    requires DistinctRuns(runs) && n <= |runs|
    ensures Valid(IndicesAfter(runs, n))
    ensures n > 0 ==> |IndicesAfter(runs, n)| == Min(|runs[n - 1]|, SLOT_COUNT)
  {
    if n > 0 {
      AlwaysValid(runs, n - 1);
      AssignedIs(IndicesAfter(runs, n - 1), runs[n - 1]);
    }
  }

  // A pool present in every reconcile from i to j keeps the index it had after
  // i, whatever pools come and go around it.
  lemma {:induction false} IndexKept(runs: seq<seq<string>>, i: nat, j: nat, k: string)
    requires DistinctRuns(runs) && 0 < i <= j <= |runs| && k in IndicesAfter(runs, i)
    requires forall n :: i <= n < j ==> k in runs[n]
    ensures k in IndicesAfter(runs, j) && IndicesAfter(runs, j)[k] == IndicesAfter(runs, i)[k]
  {
    if i < j {
      IndexKept(runs, i, j - 1, k);
      AlwaysValid(runs, j - 1);
      AssignedIs(IndicesAfter(runs, j - 1), runs[j - 1]);
    }
  }

  // ---- the allocator ---------------------------------------------------------------------

  function ByIndex(): (Placed, Placed) -> bool {
    (a: Placed, b: Placed) => a.index < b.index
  }

  function Pairs(m: Indices): set<Placed> {
    set k | k in m :: Placed(k, m[k])
  }

  lemma PairsOrdered(m: Indices)
    requires Injective(m)
    ensures TotalOrder(ByIndex(), Pairs(m))
  {
  }

  // The placements made for the keys so far.
  ghost predicate Listed(placed: seq<Placed>, m: Indices, keys: seq<string>) {
    Distinct(placed) && forall p :: p in placed <==> p.key in keys && p.key in m && m[p.key] == p.index
  }

  lemma NothingListed(m: Indices)
    ensures Listed([], m, [])
  {
  }

  // What the next key adds to the list, whichever way it is placed.
  lemma ListedSnoc(placed: seq<Placed>, m: Indices, keys: seq<string>, k: string)
    requires Listed(placed, m, keys) && k !in keys
    ensures k in m ==> Listed(placed + [Placed(k, m[k])], m, keys + [k])
    ensures k !in m ==> Listed(placed, m, keys + [k])
    ensures k !in m ==> forall n :: Listed(placed + [Placed(k, n)], m[k := n], keys + [k])
  {
  }

  lemma KeysFilled(kept: Indices, keys: seq<string>, m: Indices, next: nat)
    requires Filled(kept, keys, m, next)
    ensures forall k :: k !in keys ==> (k in m <==> k in kept) && (k in kept ==> m[k] == kept[k])
  {
  }

  class Allocator {
    var slotIdx: Indices

    constructor ()
      ensures slotIdx == map[]
    {
      slotIdx := map[];
    }

    method FirstPass(keys: seq<string>) returns (kept: Indices)
      ensures kept == KeepIndices(slotIdx, keys)
    {
      kept := map[];
      var used: set<nat> := {};
      for i := 0 to |keys|
        invariant kept == KeepIndices(slotIdx, keys[..i]) && used == kept.Values
      {
        assert keys[..i + 1][..i] == keys[..i];
        var k := keys[i];
        if k in slotIdx && slotIdx[k] < SLOT_COUNT && slotIdx[k] !in used {
          if k !in kept { ValuesSnoc(kept, k, slotIdx[k]); }
          kept := kept[k := slotIdx[k]];
          used := kept.Values;
        }
      }
      assert keys[..|keys|] == keys;
    }

    method SecondPass(kept: Indices, keys: seq<string>) returns (m: Indices, placed: seq<Placed>)
      requires Valid(kept) && Distinct(keys)
      ensures m == FillIndices(kept, keys).0 && Listed(placed, m, keys)
    {
      hide Listed, Valid;
      var next := 0;
      m, placed := kept, [];
      NothingListed(m);
      for i := 0 to |keys|
        invariant (m, next) == FillIndices(kept, keys[..i])
        invariant Listed(placed, m, keys[..i])
      {
        assert keys[..i + 1][..i] == keys[..i] && keys[..i + 1] == keys[..i] + [keys[i]];
        var k := keys[i];
        FillFilled(kept, keys[..i]);
        KeysFilled(kept, keys[..i], m, next);
        ListedSnoc(placed, m, keys[..i], k);
        if k in kept {
          placed := placed + [Placed(k, kept[k])];
        } else {
          next := NextFrom(m.Values, next);
          if next < SLOT_COUNT {
            m := m[k := next];
            placed := placed + [Placed(k, next)];
          }
        }
      }
      assert keys[..|keys|] == keys;
    }

    // Gives every pool a slot index; the pools that get one, sorted by it.
    method AssignSlotIndices(keys: seq<string>) returns (out: seq<Placed>)
      requires Valid(slotIdx) && Distinct(keys)
      modifies this
      ensures slotIdx == Assigned(old(slotIdx), keys) && Valid(slotIdx)
      ensures Elems(out) == Pairs(slotIdx) && Sorted(ByIndex(), out)
    {
      hide KeepIndices, FillIndices, AllUsed, TakenBefore, Sorted;
      var kept := FirstPass(keys);
      KeptAre(slotIdx, keys);
      AssignedIs(slotIdx, keys);
      var m, placed := SecondPass(kept, keys);
      slotIdx := m;
      assert Elems(placed) == Pairs(m);
      PairsOrdered(m);
      SortSorts(ByIndex(), placed, Pairs(m));
      out := SortBy(ByIndex(), placed);
    }

    method NextFrom(used: set<nat>, from: nat) returns (next: nat)
      ensures next == NextFree(used, from)
    {
      next := from;
      while next < SLOT_COUNT && next in used
        invariant NextFree(used, from) == NextFree(used, next)
        decreases SLOT_COUNT - next
      {
        next := next + 1;
      }
    }
  }
}
