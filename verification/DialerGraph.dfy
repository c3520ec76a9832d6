// Dialer cycles, and editing several dialers at once (core/xray/dialer.go:
// DetectDialerCycle; daemon/server_methods.go: EntryBulkDialer, validateDialerWith).
module DialerGraph {
  import opened Text
  import opened Wrappers
  import opened Sorting
  import opened DialerRefs
  import opened Names
  import opened XrayConfig

  // The stored dialer field of every entry, by normalised name.
  type Graph = map<string, string>

  function XrayNames(refs: seq<Ref>): seq<string> {
    if refs == [] then []
    else (if refs[0].kind == DialerRefs.RefXray then [NormalizeName(refs[0].name)] else []) + XrayNames(refs[1..])
  }

  // The entries an entry dials through; None when its field does not parse.
  function Edges(g: Graph, e: string): Option<seq<string>> {
    if e !in g then Some([])
    else match ParseDialer(g[e])
      case Err(_) => None
      case Ok(refs) => Some(XrayNames(refs))
  }

  // ---- the search -------------------------------------------------------------------

  datatype Verdict = Clear | Cycle(at: string) | BadDialer

  // The depth-first search from one entry, below the entries in visiting.
  function Walk(g: Graph, root: string, e: string, visiting: set<string>): Verdict
    decreases |g.Keys - visiting|, 0
  {
    if e in visiting then Cycle(e)
    else if e !in g then Clear
    else
      Shrinks(g.Keys, visiting, e);
      match Edges(g, e)
      case None => BadDialer
      case Some(next) => WalkEach(g, root, next, visiting + {e})
  }

  function WalkEach(g: Graph, root: string, next: seq<string>, visiting: set<string>): Verdict
    decreases |g.Keys - visiting|, |next|
  {
    if next == [] then Clear
    else if next[0] == root then Cycle(root)
    else
      var v := Walk(g, root, next[0], visiting);
      if v != Clear then v else WalkEach(g, root, next[1..], visiting)
  }

  lemma Shrinks(keys: set<string>, visiting: set<string>, e: string)
    requires e in keys && e !in visiting
    ensures |keys - (visiting + {e})| < |keys - visiting|
  {
    assert keys - visiting == (keys - (visiting + {e})) + {e};
  }

  function Detect(g: Graph, name: string): Verdict {
    Walk(g, name, name, {})
  }

  lemma {:induction false} EachFrom(g: Graph, root: string, next: seq<string>, visiting: set<string>, i: nat)
    requires i < |next| && WalkEach(g, root, next, visiting) == Clear
    ensures next[i] != root && Walk(g, root, next[i], visiting) == Clear
    decreases |next|
  {
    if i > 0 { EachFrom(g, root, next[1..], visiting, i - 1); }
  }

  class Walker {
    const dialers: Graph
    const root: string
    var visiting: set<string>

    constructor (g: Graph, name: string)
      ensures dialers == g && root == name && visiting == {}
    {
      dialers, root, visiting := g, name, {};
    }

    // Visits an entry and whatever it dials through; the set of entries being
    // visited is left as it was found.
    method Visit(e: string) returns (v: Verdict)
      modifies this
      ensures v == Walk(dialers, root, e, old(visiting)) && visiting == old(visiting)
      decreases |dialers.Keys - visiting|
    {
      if e in visiting { return Cycle(e); }
      if e !in dialers { return Clear; }
      ghost var was := visiting;
      Shrinks(dialers.Keys, visiting, e);
      visiting := visiting + {e};
      ghost var within := visiting;
      var refs := ReadDialer(dialers[e]);
      if refs.Err? {
        visiting := visiting - {e};
        assert visiting == was;
        return BadDialer;
      }
      v := Clear;
      var i := 0;
      while i < |refs.value|
        invariant i <= |refs.value| && visiting == within && v == Clear
        invariant WalkEach(dialers, root, XrayNames(refs.value), within) ==
                  WalkEach(dialers, root, XrayNames(refs.value[i..]), within)
      {
        var r := refs.value[i];
        assert refs.value[i..][0] == r && refs.value[i..][1..] == refs.value[i + 1..];
        if r.kind == DialerRefs.RefXray {
          var n := NormalizeName(r.name);
          assert XrayNames(refs.value[i..]) == [n] + XrayNames(refs.value[i + 1..]);
          assert XrayNames(refs.value[i..])[1..] == XrayNames(refs.value[i + 1..]);
          if n == root {
            v := Cycle(root);
            break;
          }
          v := Visit(n);
          if v != Clear { break; }
        } else {
          assert XrayNames(refs.value[i..]) == XrayNames(refs.value[i + 1..]);
        }
        i := i + 1;
      }
      if v == Clear { assert refs.value[i..] == []; }
      visiting := visiting - {e};
      assert visiting == was;
    }
  }

  // ---- what it finds -------------------------------------------------------------------

  // A way along dialer references.
  ghost predicate IsWalk(g: Graph, p: seq<string>) {
    |p| > 0 && forall i :: 0 <= i < |p| - 1 ==> Edges(g, p[i]).Some? && p[i + 1] in Edges(g, p[i]).value
  }

  // A walk that comes round to an entry it has passed, or ends at a field that does not parse.
  ghost predicate Offends(g: Graph, p: seq<string>) {
    IsWalk(g, p) && (Edges(g, p[|p| - 1]).None? || p[|p| - 1] in p[..|p| - 1])
  }

  lemma {:induction false} ClearWalk(g: Graph, root: string, p: seq<string>, visiting: set<string>)
    requires IsWalk(g, p) && Walk(g, root, p[0], visiting) == Clear
    ensures var last := p[|p| - 1];
            Edges(g, last).Some? && last !in visiting && last !in p[..|p| - 1]
    decreases |p|
  {
    if |p| > 1 {
      var next := Edges(g, p[0]).value;
      assert p[0 + 1] in next;
      var i :| 0 <= i < |next| && next[i] == p[1];
      Shrinks(g.Keys, visiting, p[0]);
      EachFrom(g, root, next, visiting + {p[0]}, i);
      assert IsWalk(g, p[1..]) by {
        forall j | 0 <= j < |p[1..]| - 1
          ensures Edges(g, p[1..][j]).Some? && p[1..][j + 1] in Edges(g, p[1..][j]).value
        {
          assert p[1..][j] == p[j + 1] && p[1..][j + 1] == p[j + 2];
        }
      }
      ClearWalk(g, root, p[1..], visiting + {p[0]});
      assert p[..|p| - 1] == [p[0]] + p[1..][..|p| - 2];
    }
  }

  // Where a walk below visiting must end for the search to object.
  ghost predicate Bad(g: Graph, root: string, p: seq<string>, visiting: set<string>) {
    IsWalk(g, p) &&
    var last := p[|p| - 1];
    Edges(g, last).None? || last in p[..|p| - 1] || last in visiting || (|p| > 1 && last == root)
  }

  lemma {:induction false} FoundWalk(g: Graph, root: string, e: string, visiting: set<string>) returns (p: seq<string>)
    requires Walk(g, root, e, visiting) != Clear
    ensures Bad(g, root, p, visiting) && p[0] == e
    decreases |g.Keys - visiting|, 0
  {
    if e in visiting || Edges(g, e).None? {
      p := [e];
    } else {
      Shrinks(g.Keys, visiting, e);
      p := FoundBelow(g, root, e, Edges(g, e).value, 0, visiting);
    }
  }

  lemma {:induction false} FoundBelow(g: Graph, root: string, e: string, next: seq<string>, i: nat,
                                      visiting: set<string>)
    returns (p: seq<string>)
    requires e in g && e !in visiting && Edges(g, e) == Some(next) && i <= |next|
    requires WalkEach(g, root, next[i..], visiting + {e}) != Clear
    ensures Bad(g, root, p, visiting) && p[0] == e
    decreases |g.Keys - (visiting + {e})|, |next| - i + 1
  {
    var n := next[i..][0];
    assert n == next[i] && n in next;
    if n == root {
      p := [e, n];
    } else if Walk(g, root, n, visiting + {e}) != Clear {
      var q := FoundWalk(g, root, n, visiting + {e});
      p := [e] + q;
      assert IsWalk(g, p);
      assert p[..|p| - 1] == [e] + q[..|q| - 1];
      assert p[|p| - 1] == q[|q| - 1];
    } else {
      assert next[i..][1..] == next[i + 1..];
      p := FoundBelow(g, root, e, next, i + 1, visiting);
    }
  }

  // The check objects exactly when, from the entry, a cycle or a field that
  // does not parse can be reached.
  lemma DetectIff(g: Graph, name: string)
    ensures Detect(g, name) != Clear <==> exists p :: Offends(g, p) && p[0] == name
  {
    if Detect(g, name) != Clear {
      var p := FoundWalk(g, name, name, {});
      if |p| > 1 && p[|p| - 1] == name { assert p[..|p| - 1][0] == name; }
      assert Offends(g, p);
    } else {
      forall p | IsWalk(g, p) && p[0] == name ensures !Offends(g, p) { ClearWalk(g, name, p, {}); }
    }
  }

  // ---- edits keep the graph acyclic ---------------------------------------------------------

  ghost predicate ClosedWalk(g: Graph, p: seq<string>) {
    IsWalk(g, p) && |p| > 1 && p[0] == p[|p| - 1]
  }

  ghost predicate Acyclic(g: Graph) {
    forall p :: !ClosedWalk(g, p)
  }

  ghost predicate Parseable(g: Graph) {
    forall e :: Edges(g, e).Some?
  }

  lemma TailWalk(g: Graph, p: seq<string>, k: nat)
    requires IsWalk(g, p) && k < |p|
    ensures IsWalk(g, p[k..])
  {
    var q := p[k..];
    forall i | 0 <= i < |q| - 1 ensures Edges(g, q[i]).Some? && q[i + 1] in Edges(g, q[i]).value {
      assert q[i] == p[k + i] && q[i + 1] == p[k + i + 1];
    }
  }

  lemma OffendingCloses(g: Graph, p: seq<string>)
    requires Offends(g, p) && Parseable(g)
    ensures exists q :: ClosedWalk(g, q)
  {
    var last := p[|p| - 1];
    assert Edges(g, last).Some?;
    var k :| 0 <= k < |p| - 1 && p[k] == last;
    TailWalk(g, p, k);
    assert ClosedWalk(g, p[k..]);
  }

  // A closed walk can be started from any entry on it.
  lemma Rotate(g: Graph, p: seq<string>, k: nat)
    requires ClosedWalk(g, p) && k < |p|
    ensures Offends(g, p[k..] + p[1..k + 1]) && (p[k..] + p[1..k + 1])[0] == p[k]
  {
    var a, b := p[k..], p[1..k + 1];
    var q := a + b;
    forall i | 0 <= i < |q| - 1 ensures Edges(g, q[i]).Some? && q[i + 1] in Edges(g, q[i]).value {
      if i < |a| - 1 {
        assert q[i] == p[k + i] && q[i + 1] == p[k + i + 1];
      } else if i == |a| - 1 {
        assert q[i] == p[|p| - 1] == p[0] && q[i + 1] == p[1];
        assert Edges(g, p[0]).Some? && p[0 + 1] in Edges(g, p[0]).value;
      } else {
        var j := i - |a| + 1;
        assert q[i] == p[j] && q[i + 1] == p[j + 1];
      }
    }
    assert |q| == |p|;
    assert q[|q| - 1] == if k == 0 then p[|p| - 1] else p[k];
    assert q[..|q| - 1][0] == q[0] == p[k];
  }

  // Every changed entry passing the check is what keeping the graph acyclic
  // takes: no more, no less.
  lemma ChangesChecked(g: Graph, g': Graph, changed: set<string>)
    requires Acyclic(g) && Parseable(g)
    requires forall e :: e !in changed ==> Edges(g', e) == Edges(g, e)
    ensures (forall c :: c in changed ==> Detect(g', c) == Clear) <==> Acyclic(g') && Parseable(g')
  {
    forall c | Acyclic(g') && Parseable(g') ensures Detect(g', c) == Clear {
      DetectIff(g', c);
      if Detect(g', c) != Clear {
        var p :| Offends(g', p) && p[0] == c;
        OffendingCloses(g', p);
        assert false;
      }
    }
    if forall c :: c in changed ==> Detect(g', c) == Clear {
      forall e ensures Edges(g', e).Some? {
        if e in changed {
          DetectIff(g', e);
          assert Edges(g', e).None? ==> Offends(g', [e]);
        }
      }
      forall p ensures !ClosedWalk(g', p) { NoClosedWalk(g, g', changed, p); }
    }
  }

  lemma RotatedOffends(g: Graph, p: seq<string>, k: nat)
    requires k < |p|
    ensures ClosedWalk(g, p) ==> exists q :: Offends(g, q) && q[0] == p[k]
  {
    if ClosedWalk(g, p) { Rotate(g, p, k); }
  }

  lemma NoClosedWalk(g: Graph, g': Graph, changed: set<string>, p: seq<string>)
    requires Acyclic(g)
    requires forall e :: e !in changed ==> Edges(g', e) == Edges(g, e)
    requires forall c :: c in changed ==> Detect(g', c) == Clear
    ensures !ClosedWalk(g', p)
  {
    hide Edges, Detect;
    if k: nat :| k < |p| && p[k] in changed {
      RotatedOffends(g', p, k);
      DetectIff(g', p[k]);
    } else {
      assert IsWalk(g', p) ==> IsWalk(g, p);
      assert !ClosedWalk(g, p);
    }
  }

  // ---- several dialers at once ---------------------------------------------------------------

  datatype Row = Row(id: nat, entry: Entry)

  ghost predicate DistinctIds(rows: seq<Row>) {
    forall i, j :: 0 <= i < j < |rows| ==> rows[i].id != rows[j].id
  }

  ghost predicate DistinctNames(rows: seq<Row>) {
    forall i, j :: 0 <= i < j < |rows| ==> rows[i].entry.name != rows[j].entry.name
  }

  ghost predicate NormalNames(rows: seq<Row>) {
    forall i :: 0 <= i < |rows| ==> NormalizeName(rows[i].entry.name) == rows[i].entry.name
  }

  // The rows of the entries table: names are normal and unique.
  ghost predicate SaneRows(rows: seq<Row>) {
    DistinctIds(rows) && DistinctNames(rows) && NormalNames(rows)
  }

  lemma SaneNormal(rows: seq<Row>)
    requires SaneRows(rows)
    ensures NormalNames(rows)
  {
  }

  function FindId(rows: seq<Row>, id: nat): (r: Option<nat>)
    ensures r.Some? ==> r.value < |rows| && rows[r.value].id == id
    ensures r.None? ==> forall i :: 0 <= i < |rows| ==> rows[i].id != id
  {
    if rows == [] then None
    else if rows[|rows| - 1].id == id then Some(|rows| - 1)
    else FindId(rows[..|rows| - 1], id)
  }

  function FindName(rows: seq<Row>, name: string): (r: Option<nat>)
    ensures r.Some? ==> r.value < |rows| && rows[r.value].entry.name == name
    ensures r.None? ==> forall i :: 0 <= i < |rows| ==> rows[i].entry.name != name
  {
    if rows == [] then None
    else if rows[|rows| - 1].entry.name == name then Some(|rows| - 1)
    else FindName(rows[..|rows| - 1], name)
  }

  function StoredGraph(rows: seq<Row>): Graph {
    if rows == [] then map[]
    else StoredGraph(rows[..|rows| - 1])[rows[|rows| - 1].entry.name := rows[|rows| - 1].entry.dialer]
  }

  lemma {:induction false} StoredIs(rows: seq<Row>)
    requires DistinctNames(rows)
    ensures forall n :: n in StoredGraph(rows) <==> exists i :: 0 <= i < |rows| && rows[i].entry.name == n
    ensures forall i :: 0 <= i < |rows| ==>
              rows[i].entry.name in StoredGraph(rows) && StoredGraph(rows)[rows[i].entry.name] == rows[i].entry.dialer
  {
    if rows != [] {
      var init := rows[..|rows| - 1];
      StoredIs(init);
      forall n | n in StoredGraph(rows) ensures exists i :: 0 <= i < |rows| && rows[i].entry.name == n {
        if n in StoredGraph(init) {
          var i :| 0 <= i < |init| && init[i].entry.name == n;
          assert rows[i].entry.name == n;
        }
      }
    }
  }

  datatype Item = Item(id: nat, dialer: string)

  // What one item asks for.
  datatype Edit = Edit(row: nat, dialer: string)

  function EditOf(rows: seq<Row>, it: Item): (e: Option<Edit>)
    ensures e.Some? ==> e.value.row < |rows| && rows[e.value.row].id == it.id
  {
    match (FindId(rows, it.id), CanonicalText(it.dialer))
    case (Some(row), Ok(d)) => Some(Edit(row, d))
    case _ => None
  }

  ghost predicate Readable(rows: seq<Row>, items: seq<Item>) {
    && (forall i, j :: 0 <= i < j < |items| ==> items[i].id != items[j].id)
    && (forall i :: 0 <= i < |items| ==> EditOf(rows, items[i]).Some?)
  }

  // Entry names to their proposed dialers.
  ghost function Proposed(rows: seq<Row>, items: seq<Item>): Graph {
    if items == [] then map[]
    else
      var g := Proposed(rows, items[..|items| - 1]);
      match EditOf(rows, items[|items| - 1])
      case Some(e) => g[rows[e.row].entry.name := e.dialer]
      case None => g
  }

  // The references of a dialer field all name things a pool can be made of.
  predicate RefKnown(rows: seq<Row>, subs: set<string>, r: Ref) {
    match r.kind
    case RefXray =>
      var row := FindName(rows, NormalizeName(r.name));
      row.Some? && MemberAllowed(rows[row.value].entry.outbound)
    case RefXraySub => NormalizeName(r.name) in subs
    case RefProxy => false
  }

  predicate TargetsMaster(b: UserInbound, name: string) {
    match ParseTarget(b.target)
    case Ok(ToMaster(n)) => NormalizeName(n) == name
    case _ => false
  }

  // One changed entry passes every check, with its own new dialer over all the
  // proposed ones.
  ghost predicate EditAllowed(rows: seq<Row>, subs: set<string>, inbounds: seq<UserInbound>, g: Graph, e: Edit)
    requires e.row < |rows|
  {
    var entry := rows[e.row].entry;
    && ParseDialer(e.dialer).Ok?
    && (forall r :: r in ParseDialer(e.dialer).value ==> RefKnown(rows, subs, r))
    && Detect(g[entry.name := e.dialer], entry.name) == Clear
    && (if e.dialer != "" then MasterAllowed(entry.outbound)
        else forall b :: b in inbounds ==> !TargetsMaster(b, entry.name))
  }

  // What the request may change, for it to be accepted.
  predicate Changes(rows: seq<Row>, e: Edit) {
    e.row < |rows| && e.dialer != rows[e.row].entry.dialer
  }

  ghost predicate Acceptable(rows: seq<Row>, subs: set<string>, inbounds: seq<UserInbound>, items: seq<Item>) {
    Readable(rows, items) &&
    forall i :: 0 <= i < |items| && Changes(rows, EditOf(rows, items[i]).value) ==>
      EditAllowed(rows, subs, inbounds, StoredGraph(rows) + Proposed(rows, items), EditOf(rows, items[i]).value)
  }

  ghost predicate ChangesNothing(rows: seq<Row>, items: seq<Item>)
    requires Readable(rows, items)
  {
    forall i :: 0 <= i < |items| ==> !Changes(rows, EditOf(rows, items[i]).value)
  }

  function Updated(rows: seq<Row>, g: Graph): seq<Row> {
    seq(|rows|, i requires 0 <= i < |rows| =>
      if rows[i].entry.name in g then rows[i].(entry := rows[i].entry.(dialer := g[rows[i].entry.name])) else rows[i])
  }

  // The entry an item is about, once the items are readable.
  function EntryName(rows: seq<Row>, it: Item): string {
    match EditOf(rows, it)
    case Some(e) => rows[e.row].entry.name
    case None => ""
  }

  function NewDialer(rows: seq<Row>, it: Item): string {
    match EditOf(rows, it)
    case Some(e) => e.dialer
    case None => ""
  }

  lemma DistinctEntries(rows: seq<Row>, a: Item, b: Item)
    requires SaneRows(rows) && EditOf(rows, a).Some? && EditOf(rows, b).Some? && a.id != b.id
    ensures EntryName(rows, a) != EntryName(rows, b)
  {
    hide NormalizeName, EditOf;
    var i, j := EditOf(rows, a).value.row, EditOf(rows, b).value.row;
    assert i != j;
  }

  lemma {:induction false} ProposedKey(rows: seq<Row>, items: seq<Item>, n: string) returns (i: nat)
    requires n in Proposed(rows, items)
    ensures i < |items| && EntryName(rows, items[i]) == n && EditOf(rows, items[i]).Some?
  {
    hide EditOf;
    var init, last := items[..|items| - 1], items[|items| - 1];
    if EditOf(rows, last).Some? && EntryName(rows, last) == n {
      i := |items| - 1;
    } else {
      i := ProposedKey(rows, init, n);
    }
  }

  lemma {:induction false} ProposedAt(rows: seq<Row>, items: seq<Item>, i: nat)
    requires SaneRows(rows) && Readable(rows, items) && i < |items|
    ensures EntryName(rows, items[i]) in Proposed(rows, items)
    ensures Proposed(rows, items)[EntryName(rows, items[i])] == NewDialer(rows, items[i])
  {
    hide SaneRows;
    var init, last := items[..|items| - 1], items[|items| - 1];
    assert EditOf(rows, last).Some?;
    if i < |items| - 1 {
      assert Readable(rows, init) && init[i] == items[i];
      ProposedAt(rows, init, i);
      DistinctEntries(rows, items[i], last);
    }
  }

  lemma UpdatedFields(rows: seq<Row>, g: Graph)
    ensures |Updated(rows, g)| == |rows|
    ensures forall i :: 0 <= i < |rows| ==>
              var r := Updated(rows, g)[i];
              r.id == rows[i].id && r.entry.name == rows[i].entry.name &&
              r.entry.dialer == (if rows[i].entry.name in g then g[rows[i].entry.name] else rows[i].entry.dialer)
  {
  }

  lemma EntryStored(rows: seq<Row>, items: seq<Item>, i: nat)
    requires Readable(rows, items) && i < |items|
    ensures exists k :: 0 <= k < |rows| && rows[k].entry.name == EntryName(rows, items[i])
  {
    hide EditOf;
    assert EditOf(rows, items[i]).Some?;
  }

  // Writing the proposed dialers gives the graph the check was made against.
  lemma StoredUpdated(rows: seq<Row>, items: seq<Item>)
    requires SaneRows(rows) && Readable(rows, items)
    ensures var g := Proposed(rows, items);
            SaneRows(Updated(rows, g)) && StoredGraph(Updated(rows, g)) == StoredGraph(rows) + g
  {
    hide EditOf, DistinctNames, DistinctIds, NormalNames, Updated, Proposed, StoredGraph, EntryName, NewDialer;
    var g := Proposed(rows, items);
    var l, r := StoredGraph(Updated(rows, g)), StoredGraph(rows) + g;
    UpdatedSane(rows, g);
    StoredIs(rows);
    forall n ensures n in l <==> n in StoredGraph(rows) { SameNames(rows, g, n); }
    forall n | n in g ensures n in StoredGraph(rows) {
      var i := ProposedKey(rows, items, n);
      EntryStored(rows, items, i);
      var k :| 0 <= k < |rows| && rows[k].entry.name == n;
    }
    forall n | n in l ensures n in r && l[n] == r[n] { DialerNow(rows, g, n); }
    assert l.Keys == r.Keys;
  }

  lemma SameNames(rows: seq<Row>, g: Graph, n: string)
    requires DistinctNames(rows) && DistinctNames(Updated(rows, g))
    ensures n in StoredGraph(Updated(rows, g)) <==> n in StoredGraph(rows)
  {
    hide Updated, StoredGraph, DistinctNames;
    var after := Updated(rows, g);
    UpdatedFields(rows, g);
    StoredIs(rows);
    StoredIs(after);
    if i :| 0 <= i < |rows| && rows[i].entry.name == n { assert after[i].entry.name == n; }
  }

  // What an update leaves stored for an entry: its new dialer, if it has one.
  lemma DialerNow(rows: seq<Row>, g: Graph, n: string)
    requires DistinctNames(rows) && DistinctNames(Updated(rows, g)) && n in StoredGraph(Updated(rows, g))
    ensures n in StoredGraph(rows) && StoredGraph(Updated(rows, g))[n] == if n in g then g[n] else StoredGraph(rows)[n]
  {
    hide Updated, StoredGraph, DistinctNames;
    var after := Updated(rows, g);
    UpdatedFields(rows, g);
    StoredIs(rows);
    StoredIs(after);
    var k :| 0 <= k < |after| && after[k].entry.name == n;
    assert rows[k].entry.name == n;
  }

  lemma UpdatedSane(rows: seq<Row>, g: Graph)
    requires SaneRows(rows)
    ensures SaneRows(Updated(rows, g))
  {
    hide NormalizeName, Updated;
    UpdatedFields(rows, g);
  }

  // With an acyclic store, the dialers to be written leave it acyclic exactly
  // when every changed entry passes the cycle check against all of them.
  lemma BulkKeepsAcyclic(rows: seq<Row>, items: seq<Item>)
    requires SaneRows(rows) && Readable(rows, items)
    requires Acyclic(StoredGraph(rows)) && Parseable(StoredGraph(rows))
    ensures var g := StoredGraph(Updated(rows, Proposed(rows, items)));
            (forall i :: 0 <= i < |items| && Changes(rows, EditOf(rows, items[i]).value) ==>
               Detect(g, EntryName(rows, items[i])) == Clear) <==>
            Acyclic(g) && Parseable(g)
  {
    hide EditOf, SaneRows, Detect, Acyclic, Parseable, Updated, Proposed, StoredGraph, Edges, Changes, EntryName;
    var g := StoredGraph(Updated(rows, Proposed(rows, items)));
    var changed := set i | 0 <= i < |items| && Changes(rows, EditOf(rows, items[i]).value) :: EntryName(rows, items[i]);
    forall n | n !in changed ensures Edges(g, n) == Edges(StoredGraph(rows), n) { EdgesKept(rows, items, changed, n); }
    ChangesChecked(StoredGraph(rows), g, changed);
    assert (forall c :: c in changed ==> Detect(g, c) == Clear) <==>
           (forall i :: 0 <= i < |items| && Changes(rows, EditOf(rows, items[i]).value) ==>
              Detect(g, EntryName(rows, items[i])) == Clear);
  }

  lemma EdgesKept(rows: seq<Row>, items: seq<Item>, changed: set<string>, n: string)
    requires SaneRows(rows) && Readable(rows, items) && n !in changed
    requires forall i :: 0 <= i < |items| && Changes(rows, EditOf(rows, items[i]).value) ==>
               EntryName(rows, items[i]) in changed
    ensures Edges(StoredGraph(Updated(rows, Proposed(rows, items))), n) == Edges(StoredGraph(rows), n)
  {
    hide SaneRows, Updated, Proposed, StoredGraph, ParseDialer;
    var p := Proposed(rows, items);
    StoredUpdated(rows, items);
    if n in p {
      var i := ProposedKey(rows, items, n);
      ProposedAt(rows, items, i);
      EntryDialer(rows, items[i]);
    }
  }

  // An item that changes nothing proposes the stored dialer.
  lemma EntryDialer(rows: seq<Row>, it: Item)
    requires SaneRows(rows) && EditOf(rows, it).Some? && !Changes(rows, EditOf(rows, it).value)
    ensures EntryName(rows, it) in StoredGraph(rows) && StoredGraph(rows)[EntryName(rows, it)] == NewDialer(rows, it)
  {
    hide NormalNames, DistinctIds, DistinctNames, StoredGraph;
    StoredIs(rows);
  }

  // The dialers of the rows whose id is in the map, set.
  function WithDialers(rows: seq<Row>, dialers: map<nat, string>): seq<Row> {
    seq(|rows|, i requires 0 <= i < |rows| =>
      if rows[i].id in dialers then rows[i].(entry := rows[i].entry.(dialer := dialers[rows[i].id])) else rows[i])
  }

  // Writing only the changed entries writes every proposed dialer.
  lemma ChangedSuffice(rows: seq<Row>, items: seq<Item>, dialers: map<nat, string>)
    requires SaneRows(rows) && Readable(rows, items)
    requires forall id :: id in dialers <==>
               exists i :: 0 <= i < |items| && items[i].id == id && Changes(rows, EditOf(rows, items[i]).value)
    requires forall i :: 0 <= i < |items| && items[i].id in dialers ==>
               dialers[items[i].id] == NewDialer(rows, items[i])
    ensures WithDialers(rows, dialers) == Updated(rows, Proposed(rows, items))
  {
    var p := Proposed(rows, items);
    forall k | 0 <= k < |rows| ensures WithDialers(rows, dialers)[k] == Updated(rows, p)[k] {
      var e := rows[k].entry;
      assert if e.name in p then rows[k].id in dialers || p[e.name] == e.dialer else rows[k].id !in dialers by {
        RowWritten(rows, items, dialers, k);
      }
      assert e.name in p && rows[k].id in dialers ==> dialers[rows[k].id] == p[e.name] by {
        RowWritten(rows, items, dialers, k);
      }
    }
  }

  lemma RowWritten(rows: seq<Row>, items: seq<Item>, dialers: map<nat, string>, k: nat)
    requires SaneRows(rows) && Readable(rows, items) && k < |rows|
    requires forall id :: id in dialers <==>
               exists i :: 0 <= i < |items| && items[i].id == id && Changes(rows, EditOf(rows, items[i]).value)
    requires forall i :: 0 <= i < |items| && items[i].id in dialers ==>
               dialers[items[i].id] == NewDialer(rows, items[i])
    ensures var p, n := Proposed(rows, items), rows[k].entry.name;
            && (n !in p ==> rows[k].id !in dialers)
            && (n in p && rows[k].id in dialers ==> dialers[rows[k].id] == p[n])
            && (n in p && rows[k].id !in dialers ==> p[n] == rows[k].entry.dialer)
  {
    hide Proposed, StoredGraph, NormalNames;
    var n := rows[k].entry.name;
    if rows[k].id in dialers {
      var i :| 0 <= i < |items| && items[i].id == rows[k].id && Changes(rows, EditOf(rows, items[i]).value);
      assert EditOf(rows, items[i]).value.row == k;
      ProposedAt(rows, items, i);
    } else if n in Proposed(rows, items) {
      var i := ProposedKey(rows, items, n);
      assert EditOf(rows, items[i]).value.row == k;
      ProposedAt(rows, items, i);
    }
  }

  // What the collected changes say of the items they were collected from.
  ghost predicate CollectedFrom(rows: seq<Row>, items: seq<Item>, changes: seq<Edit>) {
    forall e :: e in changes <==> exists i :: 0 <= i < |items| && EditOf(rows, items[i]) == Some(e) && Changes(rows, e)
  }

  lemma NoneCollected(rows: seq<Row>)
    ensures CollectedFrom(rows, [], [])
  {
  }

  lemma CollectedSnoc(rows: seq<Row>, items: seq<Item>, changes: seq<Edit>, it: Item, e: Edit)
    requires CollectedFrom(rows, items, changes) && EditOf(rows, it) == Some(e)
    ensures CollectedFrom(rows, items + [it], if Changes(rows, e) then changes + [e] else changes)
  {
    hide EditOf, Changes;
    var after, all := if Changes(rows, e) then changes + [e] else changes, items + [it];
    forall d ensures d in after <==> exists i :: 0 <= i < |all| && EditOf(rows, all[i]) == Some(d) && Changes(rows, d) {
      if d in changes {
        var i :| 0 <= i < |items| && EditOf(rows, items[i]) == Some(d) && Changes(rows, d);
        assert all[i] == items[i];
      }
      if d == e { assert all[|items|] == it; }
      if i: nat :| i < |all| && EditOf(rows, all[i]) == Some(d) && Changes(rows, d) && d != e {
        assert all[i] == items[i];
      }
    }
  }

  lemma ReadableSnoc(rows: seq<Row>, items: seq<Item>, it: Item)
    requires Readable(rows, items) && EditOf(rows, it).Some? && forall j :: 0 <= j < |items| ==> items[j].id != it.id
    ensures Readable(rows, items + [it])
  {
    hide EditOf;
  }

  lemma AcceptableReads(rows: seq<Row>, subs: set<string>, inbounds: seq<UserInbound>, items: seq<Item>)
    ensures Acceptable(rows, subs, inbounds, items) ==> Readable(rows, items)
  {
  }

  lemma NoDialers(rows: seq<Row>, dialers: map<nat, string>)
    requires forall id :: id !in dialers
    ensures WithDialers(rows, dialers) == rows
  {
  }

  lemma AcceptableChanges(rows: seq<Row>, subs: set<string>, inbounds: seq<UserInbound>, items: seq<Item>,
                          changes: seq<Edit>)
    requires Readable(rows, items) && CollectedFrom(rows, items, changes)
    ensures forall e :: e in changes ==> e.row < |rows|
    ensures var g := StoredGraph(rows) + Proposed(rows, items);
            (forall e :: e in changes && e.row < |rows| ==> EditAllowed(rows, subs, inbounds, g, e)) <==>
            Acceptable(rows, subs, inbounds, items)
    ensures changes == [] <==> ChangesNothing(rows, items)
  {
    hide StoredGraph, Proposed, EditAllowed, EditOf;
    var g := StoredGraph(rows) + Proposed(rows, items);
    forall i | 0 <= i < |items| && Changes(rows, EditOf(rows, items[i]).value)
      ensures EditOf(rows, items[i]).value in changes
    {
      assert EditOf(rows, items[i]) == Some(EditOf(rows, items[i]).value);
    }
    if changes != [] { assert changes[0] in changes; }
  }

  lemma AcceptedAcyclic(rows: seq<Row>, subs: set<string>, inbounds: seq<UserInbound>, items: seq<Item>)
    requires SaneRows(rows) && Acceptable(rows, subs, inbounds, items)
    ensures Acyclic(StoredGraph(rows)) && Parseable(StoredGraph(rows)) ==>
              var g := StoredGraph(Updated(rows, Proposed(rows, items)));
              Acyclic(g) && Parseable(g)
  {
    hide SaneRows, StoredGraph, Updated, Proposed, Acyclic, Parseable, Detect, EditOf, ParseDialer, MasterAllowed,
         RefKnown, TargetsMaster, Changes;
    StoredUpdated(rows, items);
    forall i | 0 <= i < |items| && Changes(rows, EditOf(rows, items[i]).value)
      ensures Detect(StoredGraph(rows) + Proposed(rows, items), EntryName(rows, items[i])) == Clear
    {
      AlreadyThere(rows, items, i);
    }
    if Acyclic(StoredGraph(rows)) && Parseable(StoredGraph(rows)) { BulkKeepsAcyclic(rows, items); }
  }

  // The graph of all proposed dialers already holds each item's own.
  lemma AlreadyThere(rows: seq<Row>, items: seq<Item>, i: nat)
    requires SaneRows(rows) && Readable(rows, items) && i < |items|
    ensures var g, e := StoredGraph(rows) + Proposed(rows, items), EditOf(rows, items[i]).value;
            g[EntryName(rows, items[i]) := e.dialer] == g && rows[e.row].entry.name == EntryName(rows, items[i])
  {
    hide SaneRows, StoredGraph, Proposed, Readable;
    assert EditOf(rows, items[i]).Some? by { ReadableAt(rows, items, i); }
    ProposedAt(rows, items, i);
  }

  lemma ReadableAt(rows: seq<Row>, items: seq<Item>, i: nat)
    requires Readable(rows, items) && i < |items|
    ensures EditOf(rows, items[i]).Some?
  {
  }

  // The map the write is made from: the changes, by entry id.
  ghost predicate DialersOf(rows: seq<Row>, changes: seq<Edit>, dialers: map<nat, string>) {
    && (forall j :: 0 <= j < |changes| ==> changes[j].row < |rows| && rows[changes[j].row].id in dialers)
    && (forall id :: id in dialers ==>
          exists j :: 0 <= j < |changes| && rows[changes[j].row].id == id && dialers[id] == changes[j].dialer)
  }

  lemma NoChanges(rows: seq<Row>)
    ensures DialersOf(rows, [], map[])
    ensures forall dialers: map<nat, string> :: DialersOf(rows, [], dialers) ==> dialers == map[]
  {
    forall dialers: map<nat, string> | DialersOf(rows, [], dialers) ensures dialers == map[] {
      assert forall id :: id !in dialers;
    }
  }

  lemma DialersSnoc(rows: seq<Row>, changes: seq<Edit>, dialers: map<nat, string>, e: Edit)
    requires DialersOf(rows, changes, dialers) && e.row < |rows|
    ensures DialersOf(rows, changes + [e], dialers[rows[e.row].id := e.dialer])
  {
    var after, cs := dialers[rows[e.row].id := e.dialer], changes + [e];
    forall id | id in after ensures exists j :: 0 <= j < |cs| && rows[cs[j].row].id == id && after[id] == cs[j].dialer {
      if id == rows[e.row].id {
        assert cs[|cs| - 1] == e;
      } else {
        var j :| 0 <= j < |changes| && rows[changes[j].row].id == id && dialers[id] == changes[j].dialer;
        assert cs[j] == changes[j];
      }
    }
  }

  lemma ChangedIds(rows: seq<Row>, items: seq<Item>, changes: seq<Edit>, dialers: map<nat, string>, id: nat)
    requires Readable(rows, items) && CollectedFrom(rows, items, changes) && DialersOf(rows, changes, dialers)
    ensures id in dialers <==>
              exists i :: 0 <= i < |items| && items[i].id == id && Changes(rows, EditOf(rows, items[i]).value)
  {
    hide EditOf;
    if id in dialers {
      var j :| 0 <= j < |changes| && rows[changes[j].row].id == id;
      assert changes[j] in changes;
    }
    if i: nat :| i < |items| && items[i].id == id && Changes(rows, EditOf(rows, items[i]).value) {
      var e := EditOf(rows, items[i]).value;
      assert EditOf(rows, items[i]) == Some(e) && e in changes;
    }
  }

  lemma ChangedDialer(rows: seq<Row>, items: seq<Item>, changes: seq<Edit>, dialers: map<nat, string>, i: nat)
    requires Readable(rows, items) && CollectedFrom(rows, items, changes) && DialersOf(rows, changes, dialers)
    requires i < |items| && items[i].id in dialers
    ensures dialers[items[i].id] == NewDialer(rows, items[i])
  {
    hide EditOf;
    var j :| 0 <= j < |changes| && rows[changes[j].row].id == items[i].id && dialers[items[i].id] == changes[j].dialer;
    assert changes[j] in changes;
    var k :| 0 <= k < |items| && EditOf(rows, items[k]) == Some(changes[j]);
    assert items[k].id == items[i].id;
    assert k == i;
  }

  lemma CollectedDialers(rows: seq<Row>, items: seq<Item>, changes: seq<Edit>, dialers: map<nat, string>)
    requires SaneRows(rows) && Readable(rows, items) && CollectedFrom(rows, items, changes) &&
             DialersOf(rows, changes, dialers)
    ensures WithDialers(rows, dialers) == Updated(rows, Proposed(rows, items))
  {
    hide StoredGraph, Proposed, Updated, WithDialers, SaneRows, EditOf, DialersOf, CollectedFrom, Changes, NewDialer;
    forall id
      ensures id in dialers <==>
                exists i :: 0 <= i < |items| && items[i].id == id && Changes(rows, EditOf(rows, items[i]).value)
    {
      ChangedIds(rows, items, changes, dialers, id);
    }
    forall i | 0 <= i < |items| && items[i].id in dialers ensures dialers[items[i].id] == NewDialer(rows, items[i]) {
      ChangedDialer(rows, items, changes, dialers, i);
    }
    ChangedSuffice(rows, items, dialers);
  }

  // saved: written, and whether the change could then be applied to xray.
  datatype Outcome = Refused(why: string) | Saved(applied: bool)

  class Store {
    var rows: seq<Row>
    var subs: set<string>
    var inbounds: seq<UserInbound>

    constructor (r: seq<Row>, s: set<string>, b: seq<UserInbound>)
      ensures rows == r && subs == s && inbounds == b
    {
      rows, subs, inbounds := r, s, b;
    }

    // The entry's own row counts as holding the dialer already.
    method ValidateDialer(dialer: string, name: string, g: Graph) returns (ok: bool)
      ensures ok <==>
              && ParseDialer(dialer).Ok? && (forall r :: r in ParseDialer(dialer).value ==> RefKnown(rows, subs, r))
              && Detect(g[NormalizeName(name) := dialer], NormalizeName(name)) == Clear
    {
      hide RefKnown, ParseDialer;
      var refs := ReadDialer(dialer);
      if refs.Err? { return false; }
      for i := 0 to |refs.value|
        invariant forall j :: 0 <= j < i ==> RefKnown(rows, subs, refs.value[j])
      {
        if !RefKnown(rows, subs, refs.value[i]) {
          assert refs.value[i] in refs.value;
          return false;
        }
      }
      var n := NormalizeName(name);
      var w := new Walker(g[n := dialer], n);
      var v := w.Visit(n);
      ok := v == Clear;
    }

    method Collect(items: seq<Item>) returns (readable: bool, proposed: Graph, changes: seq<Edit>)
      ensures readable <==> Readable(rows, items)
      ensures readable ==> proposed == Proposed(rows, items)
      ensures readable ==> CollectedFrom(rows, items, changes)
    {
      hide EditOf, CollectedFrom;
      proposed, changes := map[], [];
      assert CollectedFrom(rows, [], []) by { NoneCollected(rows); }
      var seen: set<nat> := {};
      for i := 0 to |items|
        invariant Readable(rows, items[..i])
        invariant proposed == Proposed(rows, items[..i])
        invariant forall id :: id in seen <==> exists j :: 0 <= j < i && items[j].id == id
        invariant CollectedFrom(rows, items[..i], changes)
      {
        if items[i].id in seen {
          return false, proposed, changes;
        }
        seen := seen + {items[i].id};
        var e := FindEdit(items[i]);
        if e.None? {
          return false, proposed, changes;
        }
        assert items[..i + 1] == items[..i] + [items[i]];
        CollectedSnoc(rows, items[..i], changes, items[i], e.value);
        ReadableSnoc(rows, items[..i], items[i]);
        proposed := proposed[rows[e.value.row].entry.name := e.value.dialer];
        if e.value.dialer != rows[e.value.row].entry.dialer { changes := changes + [e.value]; }
      }
      assert items[..|items|] == items;
      readable := true;
    }

    method FindEdit(it: Item) returns (e: Option<Edit>)
      ensures e == EditOf(rows, it)
    {
      hide FindId, CanonicalText;
      var row := FindId(rows, it.id);
      if row.None? { return None; }
      var d := CanonicalDialer(it.dialer);
      e := if d.Err? then None else Some(Edit(row.value, d.value));
    }

    method InboundTargets(name: string) returns (targeted: bool)
      ensures targeted <==> exists b :: b in inbounds && TargetsMaster(b, name)
    {
      hide TargetsMaster;
      for i := 0 to |inbounds|
        invariant forall j :: 0 <= j < i ==> !TargetsMaster(inbounds[j], name)
      {
        if TargetsMaster(inbounds[i], name) {
          assert inbounds[i] in inbounds;
          return true;
        }
      }
      targeted := false;
    }

    method CheckChanges(changes: seq<Edit>, g: Graph) returns (ok: bool)
      requires forall e :: e in changes ==> e.row < |rows|
      requires NormalNames(rows)
      ensures ok <==> forall e :: e in changes ==> EditAllowed(rows, subs, inbounds, g, e)
    {
      hide Detect, ParseDialer, MasterAllowed, RefKnown, TargetsMaster, NormalizeName;
      for i := 0 to |changes|
        invariant forall j :: 0 <= j < i ==> EditAllowed(rows, subs, inbounds, g, changes[j])
      {
        var c := changes[i];
        assert c in changes;
        var valid := ValidateDialer(c.dialer, rows[c.row].entry.name, g);
        if !valid { return false; }
        if c.dialer != "" {
          if !MasterAllowed(rows[c.row].entry.outbound) { return false; }
        } else {
          var targeted := InboundTargets(rows[c.row].entry.name);
          if targeted { return false; }
        }
      }
      ok := true;
    }

    // Sets several entries' dialers together, or none of them.
    method BulkDialer(items: seq<Item>, dbOk: bool, reconcileOk: bool) returns (r: Outcome)
      requires SaneRows(rows)
      modifies this`rows
      ensures r.Saved? <==> Acceptable(old(rows), subs, inbounds, items) && (dbOk || ChangesNothing(old(rows), items))
      ensures rows == if r.Saved? then Updated(old(rows), Proposed(old(rows), items)) else old(rows)
      ensures r.Saved? ==> r.applied == (reconcileOk || ChangesNothing(old(rows), items))
      ensures SaneRows(rows)
      ensures Acyclic(StoredGraph(old(rows))) && Parseable(StoredGraph(old(rows))) ==>
                Acyclic(StoredGraph(rows)) && Parseable(StoredGraph(rows))
    {
      hide SaneRows, StoredGraph, Proposed, Updated, WithDialers, EditAllowed, EditOf, Acyclic, Parseable, Acceptable,
           Readable, ChangesNothing, CollectedFrom, DialersOf;
      assert DialersOf(rows, [], map[]) by { NoChanges(rows); }
      assert Acceptable(rows, subs, inbounds, items) ==> Readable(rows, items) by {
        AcceptableReads(rows, subs, inbounds, items);
      }
      var readable, proposed, changes := Collect(items);
      if !readable { return Refused("unreadable request"); }
      var g := StoredGraph(rows) + proposed;
      AcceptableChanges(rows, subs, inbounds, items, changes);
      assert NormalNames(rows) by { SaneNormal(rows); }
      var allowed := CheckChanges(changes, g);
      if !allowed { return Refused("a dialer is not allowed"); }
      var dialers: map<nat, string> := map[];
      for i := 0 to |changes|
        invariant rows == old(rows)
        invariant DialersOf(rows, changes[..i], dialers)
        invariant changes == [] ==> dialers == map[]
      {
        assert changes[i] in changes && changes[..i + 1] == changes[..i] + [changes[i]];
        DialersSnoc(rows, changes[..i], dialers, changes[i]);
        dialers := dialers[rows[changes[i].row].id := changes[i].dialer];
      }
      assert changes[..|changes|] == changes;
      CollectedDialers(rows, items, changes, dialers);
      StoredUpdated(rows, items);
      AcceptedAcyclic(rows, subs, inbounds, items);
      if changes == [] {
        NoChanges(rows);
        NoDialers(rows, dialers);
        return Saved(true);
      }
      if !dbOk { return Refused("database error"); }
      rows := WithDialers(rows, dialers);
      r := Saved(reconcileOk);
    }
  }
}
