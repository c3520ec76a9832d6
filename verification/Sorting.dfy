// Go's sort.SliceStable as a function, and what its result says about which
// elements come first. `less` is the comparator handed to the sort.
module Sorting {
  import opened Text

  function Insert<T>(less: (T, T) -> bool, x: T, s: seq<T>): (r: seq<T>)
    ensures |r| == |s| + 1
  {
    if s == [] || !less(s[0], x) then [x] + s else [s[0]] + Insert(less, x, s[1..])
  }

  // Insertion from the right keeps equal elements in their order: the stable sort.
  function SortBy<T>(less: (T, T) -> bool, s: seq<T>): (r: seq<T>)
    ensures |r| == |s|
  {
    if s == [] then [] else Insert(less, s[0], SortBy(less, s[1..]))
  }

  function Elems<T>(s: seq<T>): set<T> {
    set x | x in s
  }

  predicate Distinct<T(==)>(s: seq<T>) {
    forall i, j :: 0 <= i < j < |s| ==> s[i] != s[j]
  }

  // A strict total order on the elements of dom.
  ghost predicate TotalOrder<T(!new)>(less: (T, T) -> bool, dom: set<T>) {
    && (forall a, b :: a in dom && b in dom && less(a, b) ==> !less(b, a))
    && (forall a, b :: a in dom && b in dom && a != b ==> less(a, b) || less(b, a))
    && (forall a, b, c :: a in dom && b in dom && c in dom && less(a, b) && less(b, c) ==> less(a, c))
  }

  ghost predicate Sorted<T(!new)>(less: (T, T) -> bool, s: seq<T>) {
    forall i, j :: 0 <= i < j < |s| ==> less(s[i], s[j])
  }

  lemma {:induction false} InsertKeeps<T>(less: (T, T) -> bool, x: T, s: seq<T>)
    ensures multiset(Insert(less, x, s)) == multiset(s) + multiset{x}
  {
    if s != [] && less(s[0], x) {
      InsertKeeps(less, x, s[1..]);
      assert s == [s[0]] + s[1..];
    }
  }

  lemma {:induction false} SortKeeps<T>(less: (T, T) -> bool, s: seq<T>)
    ensures multiset(SortBy(less, s)) == multiset(s)
  {
    if s != [] {
      SortKeeps(less, s[1..]);
      InsertKeeps(less, s[0], SortBy(less, s[1..]));
      assert s == [s[0]] + s[1..];
    }
  }

  lemma SameElems<T>(s: seq<T>, t: seq<T>)
    requires multiset(s) == multiset(t)
    ensures Elems(s) == Elems(t) && |s| == |t|
  {
    forall x ensures x in s <==> x in t { assert x in multiset(s) <==> x in multiset(t); }
    assert |multiset(s)| == |multiset(t)|;
  }

  lemma DistinctMultiset<T>(s: seq<T>)
    ensures Distinct(s) <==> forall x :: x in multiset(s) ==> multiset(s)[x] == 1
  {
    DistinctCount(s);
  }

  lemma {:induction false} DistinctCount<T>(s: seq<T>)
    ensures Distinct(s) <==> forall x :: x in multiset(s) ==> multiset(s)[x] == 1
  {
    if s != [] {
      var h, t := s[0], s[1..];
      assert s == [h] + t;
      assert multiset(s) == multiset(t) + multiset{h};
      DistinctCount(t);
      if Distinct(s) {
        assert h !in t;
        assert Distinct(t);
        assert forall x :: x in multiset(s) ==> multiset(s)[x] == 1;
      } else if forall x :: x in multiset(s) ==> multiset(s)[x] == 1 {
        assert multiset(s)[h] == 1;
        assert h !in multiset(t);
        assert h !in t;
        forall x | x in multiset(t) ensures multiset(t)[x] == 1 { assert x in multiset(s); }
        assert Distinct(t);
        forall i, j | 0 <= i < j < |s| ensures s[i] != s[j] {
          assert s[j] == t[j - 1];
          if i > 0 { assert s[i] == t[i - 1]; }
        }
      }
    }
  }

  lemma {:induction false} InsertSorted<T(!new)>(less: (T, T) -> bool, x: T, s: seq<T>, dom: set<T>)
    requires TotalOrder(less, dom) && x in dom && x !in s
    requires forall y :: y in s ==> y in dom
    requires Sorted(less, s)
    ensures Sorted(less, Insert(less, x, s))
  {
    if s == [] {
    } else if less(s[0], x) {
      InsertSorted(less, x, s[1..], dom);
      var r := Insert(less, x, s[1..]);
      InsertKeeps(less, x, s[1..]);
      forall j | 0 <= j < |r| ensures less(s[0], r[j]) {
        assert r[j] in multiset(r);
        assert r[j] == x || r[j] in s[1..];
      }
    } else {
      assert s[0] in s;
      forall j | 0 <= j < |s| ensures less(x, s[j]) { assert s[j] in s; }
    }
  }

  // Sorting distinct elements by a strict total order gives the sorted arrangement.
  lemma {:induction false} SortSorts<T(!new)>(less: (T, T) -> bool, s: seq<T>, dom: set<T>)
    requires TotalOrder(less, dom) && Distinct(s) && Elems(s) <= dom
    ensures Sorted(less, SortBy(less, s))
    ensures Elems(SortBy(less, s)) == Elems(s)
    ensures Distinct(SortBy(less, s))
  {
    SortKeeps(less, s);
    SameElems(SortBy(less, s), s);
    DistinctMultiset(s);
    DistinctMultiset(SortBy(less, s));
    if s != [] {
      forall y | y in s ensures y in dom { assert y in Elems(s); }
      forall y | y in s[1..] ensures y in dom { assert y in s; }
      SortSorts(less, s[1..], dom);
      SameSorted(less, s[1..]);
      forall y | y in SortBy(less, s[1..]) ensures y in dom && y != s[0] {
        assert y in Elems(s[1..]);
        var k :| 0 <= k < |s[1..]| && s[1..][k] == y;
        assert s[k + 1] == y;
      }
      InsertSorted(less, s[0], SortBy(less, s[1..]), dom);
    }
  }

  lemma SameSorted<T>(less: (T, T) -> bool, s: seq<T>)
    ensures Elems(SortBy(less, s)) == Elems(s)
  {
    SortKeeps(less, s);
    SameElems(SortBy(less, s), s);
  }

  lemma {:induction false} CardBound<T>(s: seq<T>)
    ensures |Elems(s)| <= |s|
  {
    if s != [] {
      CardBound(s[1..]);
      assert Elems(s) == {s[0]} + Elems(s[1..]);
    }
  }

  lemma {:induction false} CardDistinct<T>(s: seq<T>)
    requires Distinct(s)
    ensures |Elems(s)| == |s|
  {
    if s != [] {
      CardDistinct(s[1..]);
      assert Elems(s) == {s[0]} + Elems(s[1..]);
      assert s[0] !in Elems(s[1..]);
    }
  }

  // lead comes before everything else in dom.
  ghost predicate Leads<T(!new)>(less: (T, T) -> bool, lead: set<T>, dom: set<T>) {
    lead <= dom && forall t, u :: t in lead && u in dom && u !in lead ==> less(t, u)
  }

  // There is one leading set of each size.
  lemma LeadsUnique<T(!new)>(less: (T, T) -> bool, a: set<T>, b: set<T>, dom: set<T>)
    requires forall x, y :: x in dom && y in dom && less(x, y) ==> !less(y, x)
    requires Leads(less, a, dom) && Leads(less, b, dom) && |a| == |b|
    ensures a == b
  {
    LeadsNested(less, a, b, dom);
    SubsetCard(a, b);
  }

  // A smaller leading set lies inside a larger one.
  lemma LeadsNested<T(!new)>(less: (T, T) -> bool, a: set<T>, b: set<T>, dom: set<T>)
    requires forall x, y :: x in dom && y in dom && less(x, y) ==> !less(y, x)
    requires Leads(less, a, dom) && Leads(less, b, dom) && |a| <= |b|
    ensures a <= b
  {
    forall x | x in a ensures x in b {
      if x !in b {
        var y := SwapWitness(a, b, x);
        assert false;
      }
    }
  }

  lemma SwapWitness<T>(a: set<T>, b: set<T>, x: T) returns (y: T)
    requires |a| <= |b| && x in a && x !in b
    ensures y in b && y !in a
  {
    if b <= a {
      StrictCard(b, a);
      assert false;
    }
    y :| y in b && y !in a;
  }

  lemma CardMono<T>(a: set<T>, b: set<T>)
    requires a <= b
    ensures |a| <= |b|
  {
    assert b == a + (b - a);
  }

  lemma StrictCard<T>(a: set<T>, b: set<T>)
    requires a < b
    ensures |a| < |b|
  {
    CardMono(a, b);
    if |a| == |b| { SubsetCard(a, b); assert false; }
  }

  lemma SubsetCard<T>(a: set<T>, b: set<T>)
    requires a <= b && |a| == |b|
    ensures a == b
  {
    assert b == a + (b - a);
  }

  lemma PrefixElems<T>(s: seq<T>, k: nat)
    requires k <= |s|
    ensures forall j :: 0 <= j < k ==> s[j] in Elems(s[..k])
  {
    forall j | 0 <= j < k ensures s[j] in Elems(s[..k]) { assert s[j] == s[..k][j]; }
  }

  lemma PrefixLeads<T(!new)>(less: (T, T) -> bool, s: seq<T>, k: nat)
    requires Sorted(less, s) && Distinct(s) && k <= |s|
    ensures Leads(less, Elems(s[..k]), Elems(s)) && |Elems(s[..k])| == k
  {
    CardDistinct(s[..k]);
    PrefixElems(s, k);
    forall t, u | t in Elems(s[..k]) && u in Elems(s) && u !in Elems(s[..k]) ensures less(t, u) {
      var i :| 0 <= i < k && s[i] == t;
      var j :| 0 <= j < |s| && s[j] == u;
    }
  }

  // More places than elements: some element comes twice.
  lemma MustRepeat<T>(s: seq<T>, dom: set<T>)
    requires Elems(s) <= dom && |s| > |dom|
    ensures !Distinct(s)
  {
    if Distinct(s) { CardDistinct(s); }
    assert dom == Elems(s) + (dom - Elems(s));
  }

  // The sorted arrangement of a set is unique.
  lemma {:induction false} SortedUnique<T(!new)>(less: (T, T) -> bool, s: seq<T>, t: seq<T>)
    requires forall x, y :: x in Elems(s) && y in Elems(s) && less(x, y) ==> !less(y, x)
    requires Sorted(less, s) && Sorted(less, t) && Distinct(s) && Distinct(t)
    requires Elems(s) == Elems(t)
    ensures s == t
  {
    CardDistinct(s);
    CardDistinct(t);
    if s != [] {
      assert s[0] in Elems(t) && t[0] in Elems(s);
      var i :| 0 <= i < |t| && t[i] == s[0];
      var j :| 0 <= j < |s| && s[j] == t[0];
      assert s[0] == t[0];
      assert Elems(s[1..]) == Elems(s) - {s[0]} by { ElemsTail(s); }
      assert Elems(t[1..]) == Elems(t) - {t[0]} by { ElemsTail(t); }
      SortedUnique(less, s[1..], t[1..]);
      assert s == [s[0]] + s[1..] && t == [t[0]] + t[1..];
    }
  }

  lemma ElemsTail<T>(s: seq<T>)
    requires s != [] && Distinct(s)
    ensures Elems(s[1..]) == Elems(s) - {s[0]}
  {
    forall x | x in Elems(s) && x != s[0] ensures x in s[1..] {
      var i :| 0 <= i < |s| && s[i] == x;
      assert s[1..][i - 1] == x;
    }
  }

  lemma ElemsConcat<T>(a: seq<T>, b: seq<T>)
    ensures Elems(a + b) == Elems(a) + Elems(b)
  {
  }

  // ---- stable sort by a two-valued key: a partition ------------------------

  function Keep<T(!new)>(p: T -> bool, s: seq<T>): seq<T> {
    if s == [] then [] else if p(s[0]) then [s[0]] + Keep(p, s[1..]) else Keep(p, s[1..])
  }

  lemma {:induction false} KeepElems<T(!new)>(p: T -> bool, s: seq<T>)
    ensures forall x :: x in Keep(p, s) <==> x in s && p(x)
    ensures Distinct(s) ==> Distinct(Keep(p, s))
  {
    if s != [] { KeepElems(p, s[1..]); assert s == [s[0]] + s[1..]; }
  }

  function Not<T(!new)>(p: T -> bool): T -> bool {
    x => !p(x)
  }

  function ByFlag<T(!new)>(p: T -> bool): (T, T) -> bool {
    (a, b) => p(a) && !p(b)
  }

  lemma {:induction false} InsertPartition<T(!new)>(p: T -> bool, x: T, yes: seq<T>, no: seq<T>)
    requires forall y :: y in yes ==> p(y)
    requires forall y :: y in no ==> !p(y)
    ensures Insert(ByFlag(p), x, yes + no) == if p(x) then [x] + yes + no else yes + [x] + no
  {
    var s := yes + no;
    if p(x) {
      assert Insert(ByFlag(p), x, s) == [x] + s;
    } else if yes == [] {
      assert s == no;
      if no != [] { assert no[0] in no; }
    } else {
      assert yes[0] in yes;
      assert s[1..] == yes[1..] + no;
      InsertPartition(p, x, yes[1..], no);
    }
  }

  // Stable-sorting by a flag puts the flagged first and keeps both groups' order.
  lemma {:induction false} SortPartition<T(!new)>(p: T -> bool, s: seq<T>)
    ensures SortBy(ByFlag(p), s) == Keep(p, s) + Keep(Not(p), s)
  {
    if s != [] {
      var yes, no := Keep(p, s[1..]), Keep(Not(p), s[1..]);
      KeepElems(p, s[1..]);
      KeepElems(Not(p), s[1..]);
      assert Not(p)(s[0]) == !p(s[0]) && forall y :: y in no ==> !p(y);
      hide Not, ByFlag, Insert;
      SortPartition(p, s[1..]);
      InsertPartition(p, s[0], yes, no);
      assert yes + [s[0]] + no == yes + ([s[0]] + no);
    }
  }

  // ---- sort.Strings -----------------------------------------------------------

  function KeyOrder(): (string, string) -> bool {
    (a: string, b: string) => Before(a, b)
  }

  lemma KeyOrderTotal(dom: set<string>)
    ensures TotalOrder(KeyOrder(), dom)
  {
    var less := KeyOrder();
    forall a, b | a in dom && b in dom && less(a, b) ensures !less(b, a) { BeforeAsymmetric(a, b); }
    forall a, b | a in dom && b in dom && a != b ensures less(a, b) || less(b, a) { BeforeTotal(a, b); }
    forall a, b, c | a in dom && b in dom && c in dom && less(a, b) && less(b, c) ensures less(a, c) {
      BeforeTransitive(a, b, c);
    }
  }

  lemma SortedDistinct(s: seq<string>)
    requires Sorted(KeyOrder(), s)
    ensures Distinct(s)
  {
    forall i, j | 0 <= i < j < |s| ensures s[i] != s[j] { BeforeAsymmetric(s[i], s[j]); }
  }
}
