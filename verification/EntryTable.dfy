// What the entries table keeps through edits of several dialers at once
// (daemon/server_methods.go: bulkSetDialer, validateDialer).
module EntryTable {
  import opened Wrappers
  import opened Text
  import opened Names
  import opened XrayConfig
  import opened DialerRefs
  import opened DialerGraph
  import Targets

  // ---- a sound table -----------------------------------------------------------------

  // A reference a pool can be made of: an entry that tunnels, or a subscription.
  ghost predicate Usable(rows: seq<Row>, subs: set<string>, r: Ref) {
    match r.kind
    case RefXray =>
      exists i :: 0 <= i < |rows| && rows[i].entry.name == NormalizeName(r.name) && CanCarry(rows[i].entry.outbound)
    case RefXraySub => NormalizeName(r.name) in subs
    case RefProxy => false
  }

  predicate CanCarry(o: Stored) { o.Stored? && Targets.Tunnels(o.protocol) }

  predicate CanDial(o: Stored) { o.Stored? && ToLower(o.protocol) != "hysteria" }

  // An inbound's target says master and, up to spelling, this name.
  ghost predicate AimsAt(b: UserInbound, name: string) {
    exists n :: n != "" && TrimSpace(b.target) == "master:" + n && NormalizeName(n) == name
  }

  // A dialer can be read and names only usable things; whoever has one can dial
  // through it, and whoever has none is no inbound's master.
  ghost predicate DialerFits(rows: seq<Row>, subs: set<string>, inbounds: seq<UserInbound>, e: Entry, d: string) {
    && ParseDialer(d).Ok? && (forall r :: r in ParseDialer(d).value ==> Usable(rows, subs, r))
    && (d != "" ==> CanDial(e.outbound))
    && (d == "" ==> forall b :: b in inbounds ==> !AimsAt(b, e.name))
  }

  ghost predicate SoundTable(rows: seq<Row>, subs: set<string>, inbounds: seq<UserInbound>) {
    && Acyclic(StoredGraph(rows)) && Parseable(StoredGraph(rows))
    && forall i :: 0 <= i < |rows| ==> DialerFits(rows, subs, inbounds, rows[i].entry, rows[i].entry.dialer)
  }

  // ---- the checks as that ---------------------------------------------------------------

  lemma KnownIs(rows: seq<Row>, subs: set<string>, r: Ref)
    requires DistinctNames(rows)
    ensures RefKnown(rows, subs, r) <==> Usable(rows, subs, r)
  {
    hide NormalizeName;
    if r.kind.RefXray? {
      var row := FindName(rows, NormalizeName(r.name));
      forall i | 0 <= i < |rows| && rows[i].entry.name == NormalizeName(r.name) ensures row == Some(i) { }
    }
  }

  lemma AimIs(b: UserInbound, name: string)
    ensures TargetsMaster(b, name) <==> AimsAt(b, name)
  {
    hide NormalizeName, TrimSpace;
    var s := TrimSpace(b.target);
    Targets.DirectWhole();
    assert "master" + ":" == "master:";
    forall n ensures n != "" && s == "master:" + n <==> ParseTarget(b.target) == Ok(ToMaster(n)) {
      Targets.Spelled(s, "master", n);
      hide Cut;
    }
    hide ParseTarget;
  }

  // An edit is allowed exactly when its dialer fits and closes no cycle.
  lemma AllowedIs(rows: seq<Row>, subs: set<string>, inbounds: seq<UserInbound>, g: Graph, e: Edit)
    requires DistinctNames(rows) && e.row < |rows|
    ensures EditAllowed(rows, subs, inbounds, g, e) <==>
            && DialerFits(rows, subs, inbounds, rows[e.row].entry, e.dialer)
            && Detect(g[rows[e.row].entry.name := e.dialer], rows[e.row].entry.name) == Clear
  {
    forall r ensures RefKnown(rows, subs, r) <==> Usable(rows, subs, r) { KnownIs(rows, subs, r); }
    forall b, name ensures TargetsMaster(b, name) <==> AimsAt(b, name) { AimIs(b, name); }
    hide DistinctNames, RefKnown, Usable, TargetsMaster, AimsAt, Detect, ParseDialer, ToLower;
  }

  // What fits does not depend on what the dialers are now.
  lemma FitsStill(rows: seq<Row>, subs: set<string>, inbounds: seq<UserInbound>, g: Graph, e: Entry, f: Entry,
                  d: string)
    requires e.name == f.name && e.outbound == f.outbound
    ensures DialerFits(Updated(rows, g), subs, inbounds, f, d) <==> DialerFits(rows, subs, inbounds, e, d)
  {
    forall r ensures Usable(Updated(rows, g), subs, r) <==> Usable(rows, subs, r) { UsableStill(rows, subs, g, r); }
    hide Updated, Usable, ParseDialer, AimsAt, CanDial;
  }

  lemma UsableStill(rows: seq<Row>, subs: set<string>, g: Graph, r: Ref)
    ensures Usable(Updated(rows, g), subs, r) <==> Usable(rows, subs, r)
  {
    hide NormalizeName, CanCarry;
    var after := Updated(rows, g);
    forall i | 0 <= i < |rows|
      ensures after[i].entry.name == rows[i].entry.name && after[i].entry.outbound == rows[i].entry.outbound { }
    hide Updated;
    if r.kind.RefXray? {
      if i :| 0 <= i < |rows| && rows[i].entry.name == NormalizeName(r.name) && CanCarry(rows[i].entry.outbound) {
        assert after[i].entry.name == NormalizeName(r.name);
      }
      if i :| 0 <= i < |after| && after[i].entry.name == NormalizeName(r.name) && CanCarry(after[i].entry.outbound) {
        assert rows[i].entry.name == NormalizeName(r.name);
      }
    }
  }

  // ---- main result ------------------------------------------------------------------------

  // On a sound table a request that can be read is acceptable exactly when the
  // table it would leave is sound.
  lemma AcceptableIff(rows: seq<Row>, subs: set<string>, inbounds: seq<UserInbound>, items: seq<Item>)
    requires SaneRows(rows) && Readable(rows, items) && SoundTable(rows, subs, inbounds)
    ensures Acceptable(rows, subs, inbounds, items) <==>
            SoundTable(Updated(rows, Proposed(rows, items)), subs, inbounds)
  {
    var after := Updated(rows, Proposed(rows, items));
    hide Updated, Proposed, StoredGraph, Acyclic, Parseable, Detect, EditOf, DialerFits, EditAllowed, EntryName,
         Changes, DistinctIds, DistinctNames, NormalNames;
    BulkKeepsAcyclic(rows, items);
    StoredUpdated(rows, items);
    RowsFitIff(rows, subs, inbounds, items);
    forall i | 0 <= i < |items| && Changes(rows, EditOf(rows, items[i]).value)
      ensures EditAllowed(rows, subs, inbounds, StoredGraph(rows) + Proposed(rows, items), EditOf(rows, items[i]).value)
              <==> ItemFits(rows, subs, inbounds, items, i) &&
                   Detect(StoredGraph(after), EntryName(rows, items[i])) == Clear
    {
      ItemAllowed(rows, subs, inbounds, items, i);
    }
    hide ItemFits, SaneRows;
  }

  ghost predicate ItemFits(rows: seq<Row>, subs: set<string>, inbounds: seq<UserInbound>, items: seq<Item>, i: nat)
    requires Readable(rows, items) && i < |items|
  {
    var e := EditOf(rows, items[i]).value;
    DialerFits(rows, subs, inbounds, rows[e.row].entry, e.dialer)
  }

  lemma ItemAllowed(rows: seq<Row>, subs: set<string>, inbounds: seq<UserInbound>, items: seq<Item>, i: nat)
    requires SaneRows(rows) && Readable(rows, items) && i < |items|
    ensures var g := StoredGraph(rows) + Proposed(rows, items);
            EditAllowed(rows, subs, inbounds, g, EditOf(rows, items[i]).value) <==>
            ItemFits(rows, subs, inbounds, items, i) && Detect(g, EntryName(rows, items[i])) == Clear
  {
    hide StoredGraph, Proposed, Detect, DialerFits, EditAllowed;
    var g, e := StoredGraph(rows) + Proposed(rows, items), EditOf(rows, items[i]).value;
    AllowedIs(rows, subs, inbounds, g, e);
    AlreadyThere(rows, items, i);
    hide EditOf, EntryName;
  }

  // Every row of the table to be left fits exactly when every change does.
  lemma RowsFitIff(rows: seq<Row>, subs: set<string>, inbounds: seq<UserInbound>, items: seq<Item>)
    requires SaneRows(rows) && Readable(rows, items)
    requires forall i :: 0 <= i < |rows| ==> DialerFits(rows, subs, inbounds, rows[i].entry, rows[i].entry.dialer)
    ensures var after := Updated(rows, Proposed(rows, items));
            (forall i :: 0 <= i < |after| ==>
               DialerFits(after, subs, inbounds, after[i].entry, after[i].entry.dialer)) <==>
            (forall i :: 0 <= i < |items| && Changes(rows, EditOf(rows, items[i]).value) ==>
               ItemFits(rows, subs, inbounds, items, i))
  {
    var p := Proposed(rows, items);
    var after := Updated(rows, p);
    UpdatedFields(rows, p);
    forall k | 0 <= k < |rows|
      ensures DialerFits(after, subs, inbounds, after[k].entry, after[k].entry.dialer) <==>
              DialerFits(rows, subs, inbounds, rows[k].entry, after[k].entry.dialer)
    {
      FitsStill(rows, subs, inbounds, p, rows[k].entry, after[k].entry, after[k].entry.dialer);
    }
    hide Updated, Proposed, EditOf, DialerFits, SaneRows;
    forall i | 0 <= i < |items|
      ensures EditOf(rows, items[i]).Some? && EditOf(rows, items[i]).value.row < |rows|
      ensures after[EditOf(rows, items[i]).value.row].entry.dialer == EditOf(rows, items[i]).value.dialer
    {
      RowOfItem(rows, items, i);
    }
    forall k | 0 <= k < |rows| && after[k].entry.dialer != rows[k].entry.dialer
      ensures exists i :: 0 <= i < |items| && EditOf(rows, items[i]).value.row == k &&
                          Changes(rows, EditOf(rows, items[i]).value)
    {
      ItemOfRow(rows, items, k);
    }
  }

  lemma RowOfItem(rows: seq<Row>, items: seq<Item>, i: nat)
    requires SaneRows(rows) && Readable(rows, items) && i < |items|
    ensures EditOf(rows, items[i]).Some?
    ensures var e := EditOf(rows, items[i]).value;
            e.row < |rows| && Updated(rows, Proposed(rows, items))[e.row].entry.dialer == e.dialer
  {
    hide Updated, Proposed, SaneRows;
    ReadableAt(rows, items, i);
    ProposedAt(rows, items, i);
    UpdatedFields(rows, Proposed(rows, items));
    hide EditOf;
  }

  lemma ItemOfRow(rows: seq<Row>, items: seq<Item>, k: nat)
    requires SaneRows(rows) && Readable(rows, items) && k < |rows|
    requires Updated(rows, Proposed(rows, items))[k].entry.dialer != rows[k].entry.dialer
    ensures exists i :: 0 <= i < |items| && EditOf(rows, items[i]).Some? && EditOf(rows, items[i]).value.row == k &&
                        Changes(rows, EditOf(rows, items[i]).value)
  {
    hide Updated, Proposed, NormalNames, DistinctIds;
    var p := Proposed(rows, items);
    UpdatedFields(rows, p);
    var i := ProposedKey(rows, items, rows[k].entry.name);
    ProposedAt(rows, items, i);
    hide EditOf;
    var e := EditOf(rows, items[i]).value;
    assert rows[e.row].entry.name == rows[k].entry.name;
    assert e.row == k;
  }

  // So over any number of bulk edits, saved or refused, the table stays sound.
  lemma {:induction false} AlwaysSound(tables: seq<seq<Row>>, subs: set<string>, inbounds: seq<UserInbound>,
                                       requests: seq<seq<Item>>, n: nat)
    requires |tables| == |requests| + 1 && n < |tables|
    requires SaneRows(tables[0]) && SoundTable(tables[0], subs, inbounds)
    requires forall i :: 0 <= i < |requests| ==>
               || tables[i + 1] == tables[i]
               || (Acceptable(tables[i], subs, inbounds, requests[i]) &&
                   tables[i + 1] == Updated(tables[i], Proposed(tables[i], requests[i])))
    ensures SaneRows(tables[n]) && SoundTable(tables[n], subs, inbounds)
  {
    hide SaneRows, SoundTable, Acceptable, Updated, Proposed;
    if n > 0 {
      AlwaysSound(tables, subs, inbounds, requests, n - 1);
      var rows, items := tables[n - 1], requests[n - 1];
      if tables[n] != rows {
        AcceptableReads(rows, subs, inbounds, items);
        AcceptableIff(rows, subs, inbounds, items);
        StoredUpdated(rows, items);
      }
    }
  }
}
