// Traffic deltas from cumulative counters, and byte caps (daemon/traffic.go).
module Traffic {
  import opened Wrappers

  datatype Tag = Tag(kind: string, tag: string)
  datatype Cursor = Cursor(tag: Tag, down: bool)
  datatype Counter = Counter(cursor: Cursor, bytes: nat)
  datatype Agg = Agg(up: nat, down: nat)

  type Last = map<Cursor, nat>
  type Totals = map<Tag, Agg>

  function LastOf(last: Last, c: Cursor): nat {
    if c in last then last[c] else 0
  }

  function AggOf(t: Totals, tag: Tag): Agg {
    if tag in t then t[tag] else Agg(0, 0)
  }

  // A counter that went backwards was reset: its value is the delta.
  function Delta(was: nat, now: nat): nat {
    if now < was then now else now - was
  }

  function Plus(a: Agg, down: bool, n: nat): Agg {
    if down then a.(down := a.down + n) else a.(up := a.up + n)
  }

  // One poll: the readings remembered, and the deltas of the kept tags.
  function Sampled(last: Last, kept: set<Tag>, cs: seq<Counter>): (Last, Totals) {
    if cs == [] then (last, map[])
    else
      var (l, t) := Sampled(last, kept, cs[..|cs| - 1]);
      var c := cs[|cs| - 1];
      var tag := c.cursor.tag;
      (l[c.cursor := c.bytes],
       if tag in kept then t[tag := Plus(AggOf(t, tag), c.cursor.down, Delta(LastOf(l, c.cursor), c.bytes))] else t)
  }

  // Adding a poll's deltas to what is stored; a tag without traffic gets no row.
  function Stored(totals: Totals, poll: Totals): Totals {
    map tag | tag in totals.Keys + poll.Keys && (tag in totals || AggOf(poll, tag) != Agg(0, 0)) ::
      Agg(AggOf(totals, tag).up + AggOf(poll, tag).up, AggOf(totals, tag).down + AggOf(poll, tag).down)
  }

  class Sampler {
    var last: Last
    var totals: Totals

    constructor ()
      ensures last == map[] && totals == map[]
    {
      last, totals := map[], map[];
    }

    method Aggregate(counters: seq<Counter>, kept: set<Tag>) returns (byTag: Totals)
      modifies this`last
      ensures (last, byTag) == Sampled(old(last), kept, counters)
    {
      byTag := map[];
      for i := 0 to |counters|
        invariant (last, byTag) == Sampled(old(last), kept, counters[..i])
      {
        assert counters[..i + 1][..i] == counters[..i];
        var c := counters[i];
        var delta := c.bytes as int - LastOf(last, c.cursor);
        if delta < 0 { delta := c.bytes; }
        last := last[c.cursor := c.bytes];
        if c.cursor.tag !in kept { continue; }
        var a := AggOf(byTag, c.cursor.tag);
        if c.cursor.down { a := a.(down := a.down + delta); } else { a := a.(up := a.up + delta); }
        byTag := byTag[c.cursor.tag := a];
      }
      assert counters[..|counters|] == counters;
    }

    // One poll of the counters, written to the store.
    method Poll(counters: seq<Counter>, kept: set<Tag>)
      modifies this
      ensures var (l, t) := Sampled(old(last), kept, counters);
              last == l && totals == Stored(old(totals), t)
    {
      var byTag := Aggregate(counters, kept);
      AddTraffic(byTag);
    }

    method AddTraffic(byTag: Totals)
      modifies this`totals
      ensures totals == Stored(old(totals), byTag)
    {
      hide Stored, Only, AggOf;
      var left := byTag.Keys;
      ghost var done := {};
      NoRows(totals, byTag);
      while left != {}
        invariant forall t :: t in left <==> t in byTag && t !in done
        invariant totals == Stored(old(totals), Only(byTag, done))
        decreases |left|
      {
        var tag :| tag in left;
        StoreRow(old(totals), byTag, done, tag);
        left := left - {tag};
        done := done + {tag};
        var a := byTag[tag];
        if a.up != 0 || a.down != 0 {
          var b := AggOf(totals, tag);
          totals := totals[tag := Agg(b.up + a.up, b.down + a.down)];
        }
      }
      AllRows(byTag, done);
    }
  }

  lemma AllRows(poll: Totals, done: set<Tag>)
    requires forall t :: t in poll ==> t in done
    ensures Only(poll, done) == poll
  {
  }

  function Only(t: Totals, tags: set<Tag>): Totals {
    map tag | tag in t && tag in tags :: t[tag]
  }

  lemma NoRows(totals: Totals, poll: Totals)
    ensures Stored(totals, Only(poll, {})) == totals
  {
    assert Only(poll, {}) == map[];
    assert Stored(totals, map[]).Keys == totals.Keys;
  }

  lemma RowOf(totals: Totals, poll: Totals, t: Tag)
    ensures t in Stored(totals, poll) <==> t in totals || AggOf(poll, t) != Agg(0, 0)
    ensures t in Stored(totals, poll) ==>
              Stored(totals, poll)[t] ==
                  Agg(AggOf(totals, t).up + AggOf(poll, t).up, AggOf(totals, t).down + AggOf(poll, t).down)
  {
  }

  lemma OnlyAt(poll: Totals, tags: set<Tag>, t: Tag)
    ensures AggOf(Only(poll, tags), t) == if t in tags then AggOf(poll, t) else Agg(0, 0)
  {
  }

  // Writing one more row.
  lemma StoreRow(totals: Totals, poll: Totals, done: set<Tag>, tag: Tag)
    requires tag in poll && tag !in done
    ensures var s, a := Stored(totals, Only(poll, done)), poll[tag];
            Stored(totals, Only(poll, done + {tag})) ==
            if a == Agg(0, 0) then s else s[tag := Agg(AggOf(s, tag).up + a.up, AggOf(s, tag).down + a.down)]
  {
    hide Stored, Only;
    var s, s', a := Stored(totals, Only(poll, done)), Stored(totals, Only(poll, done + {tag})), poll[tag];
    var r := if a == Agg(0, 0) then s else s[tag := Agg(AggOf(s, tag).up + a.up, AggOf(s, tag).down + a.down)];
    forall t: Tag ensures (t in s' <==> t in r) && (t in s' ==> s'[t] == r[t]) {
      RowOf(totals, Only(poll, done), t);
      RowOf(totals, Only(poll, done + {tag}), t);
      OnlyAt(poll, done, t);
      OnlyAt(poll, done + {tag}, t);
    }
    assert s' == r;
  }

  // ---- conservation ---------------------------------------------------------------

  datatype Poll = Poll(counters: seq<Counter>, kept: set<Tag>)

  // A cursor's readings, oldest first.
  function Readings(cs: seq<Counter>, c: Cursor): seq<nat> {
    if cs == [] then []
    else Readings(cs[..|cs| - 1], c) + if cs[|cs| - 1].cursor == c then [cs[|cs| - 1].bytes] else []
  }

  function AllReadings(polls: seq<Poll>, c: Cursor): seq<nat> {
    if polls == [] then [] else AllReadings(polls[..|polls| - 1], c) + Readings(polls[|polls| - 1].counters, c)
  }

  function Final(rs: seq<nat>, start: nat): nat {
    if rs == [] then start else rs[|rs| - 1]
  }

  // The deltas of successive readings, summed.
  function Deltas(start: nat, rs: seq<nat>): nat {
    if rs == [] then 0
    else
      var init := rs[..|rs| - 1];
      Deltas(start, init) + Delta(Final(init, start), rs[|rs| - 1])
  }

  // Every reading just before a drop, summed.
  function Dropped(start: nat, rs: seq<nat>): nat {
    if rs == [] then 0
    else
      var init := rs[..|rs| - 1];
      Dropped(start, init) + if rs[|rs| - 1] < Final(init, start) then Final(init, start) else 0
  }

  // What is stored is the last reading and every reading lost to a reset.
  lemma {:induction false} DeltasConserve(start: nat, rs: seq<nat>)
    ensures Deltas(start, rs) + start == Final(rs, start) + Dropped(start, rs)
  {
    if rs != [] { DeltasConserve(start, rs[..|rs| - 1]); }
  }

  lemma {:induction false} DeltasJoin(start: nat, a: seq<nat>, b: seq<nat>)
    ensures Deltas(start, a + b) == Deltas(start, a) + Deltas(Final(a, start), b)
    ensures Final(a + b, start) == Final(b, Final(a, start))
  {
    if b == [] {
      assert a + b == a;
    } else {
      DeltasJoin(start, a, b[..|b| - 1]);
      assert (a + b)[..|a + b| - 1] == a + b[..|b| - 1];
    }
  }

  function Side(a: Agg, down: bool): nat {
    if down then a.down else a.up
  }

  // One poll adds to each side of a kept tag exactly its cursor's deltas.
  lemma {:induction false} SampledIs(last: Last, kept: set<Tag>, cs: seq<Counter>, c: Cursor)
    ensures var (l, t) := Sampled(last, kept, cs);
            && LastOf(l, c) == Final(Readings(cs, c), LastOf(last, c))
            && Side(AggOf(t, c.tag), c.down) == if c.tag in kept then Deltas(LastOf(last, c), Readings(cs, c)) else 0
  {
    if cs != [] {
      var init, d := cs[..|cs| - 1], cs[|cs| - 1];
      SampledIs(last, kept, init, c);
      var rs := Readings(init, c);
      if d.cursor == c {
        assert (rs + [d.bytes])[..|rs|] == rs;
        assert Readings(cs, c) == rs + [d.bytes];
      } else {
        assert Readings(cs, c) == rs;
        assert d.cursor.tag == c.tag ==> d.cursor.down != c.down;
      }
    }
  }

  function LastAfter(polls: seq<Poll>): Last {
    if polls == [] then map[]
    else
      var p := polls[|polls| - 1];
      Sampled(LastAfter(polls[..|polls| - 1]), p.kept, p.counters).0
  }

  function TotalsAfter(polls: seq<Poll>): Totals {
    if polls == [] then map[]
    else
      var p := polls[|polls| - 1];
      Stored(TotalsAfter(polls[..|polls| - 1]), Sampled(LastAfter(polls[..|polls| - 1]), p.kept, p.counters).1)
  }

  lemma StoredSide(totals: Totals, poll: Totals, tag: Tag, down: bool)
    ensures Side(AggOf(Stored(totals, poll), tag), down) == Side(AggOf(totals, tag), down) +
            Side(AggOf(poll, tag), down)
  {
  }

  // Conservation over every sequence of polls, resets included: the stored
  // bytes of a tag kept throughout are its cursor's last reading plus every
  // reading just before an observed drop.
  lemma {:induction false} TrafficConserved(polls: seq<Poll>, c: Cursor)
    requires forall i :: 0 <= i < |polls| ==> c.tag in polls[i].kept
    ensures LastOf(LastAfter(polls), c) == Final(AllReadings(polls, c), 0)
    ensures Side(AggOf(TotalsAfter(polls), c.tag), c.down) == Deltas(0, AllReadings(polls, c))
    ensures Side(AggOf(TotalsAfter(polls), c.tag), c.down) == Final(AllReadings(polls, c), 0) +
            Dropped(0, AllReadings(polls, c))
  {
    DeltasConserve(0, AllReadings(polls, c));
    if polls != [] {
      hide Stored, Sampled, Deltas, Dropped, Final;
      var init, p := polls[..|polls| - 1], polls[|polls| - 1];
      TrafficConserved(init, c);
      SampledIs(LastAfter(init), p.kept, p.counters, c);
      StoredSide(TotalsAfter(init), Sampled(LastAfter(init), p.kept, p.counters).1, c.tag, c.down);
      DeltasJoin(0, AllReadings(init, c), Readings(p.counters, c));
    } else {
      assert Deltas(0, []) == 0 && Final([], 0) == 0;
    }
  }

  // ---- against what was carried ---------------------------------------------------------

  // A reading, and which run of the process it was taken from.
  datatype Sample = Sample(run: nat, bytes: nat)

  function Bytes(ss: seq<Sample>): seq<nat> {
    seq(|ss|, i requires 0 <= i < |ss| => ss[i].bytes)
  }

  // Each process counts up from zero, and processes follow one another.
  ghost predicate CountsUp(ss: seq<Sample>) {
    forall i :: 0 < i < |ss| ==>
          ss[i - 1].run <= ss[i].run && (ss[i - 1].run == ss[i].run ==> ss[i - 1].bytes <= ss[i].bytes)
  }

  function LastBytes(ss: seq<Sample>): nat {
    if ss == [] then 0 else ss[|ss| - 1].bytes
  }

  // The last readings of the processes that have been followed by another.
  function Ended(ss: seq<Sample>): nat {
    if |ss| < 2 then 0
    else Ended(ss[..|ss| - 1]) + if ss[|ss| - 2].run != ss[|ss| - 1].run then ss[|ss| - 2].bytes else 0
  }

  // The bytes carried as far as readings show: the last one of every process.
  function Carried(ss: seq<Sample>): nat { Ended(ss) + LastBytes(ss) }

  // Readings of a process that the next process's first reading hides, having
  // already counted past them.
  function Hidden(ss: seq<Sample>): nat {
    if |ss| < 2 then 0
    else
      var init, s, p := ss[..|ss| - 1], ss[|ss| - 1], ss[|ss| - 2];
      Hidden(init) + if p.run != s.run && s.bytes >= p.bytes then p.bytes else 0
  }

  // The stored total falls short of the bytes carried by exactly the readings
  // hidden by restarts that no drop showed; it never exceeds them.
  lemma {:induction false} StoredAgainstCarried(ss: seq<Sample>)
    requires CountsUp(ss)
    ensures Deltas(0, Bytes(ss)) + Hidden(ss) == Carried(ss)
  {
    if ss != [] {
      var init, s := ss[..|ss| - 1], ss[|ss| - 1];
      assert CountsUp(init) by {
        forall i | 0 < i < |init|
          ensures init[i - 1].run <= init[i].run &&
                  (init[i - 1].run == init[i].run ==> init[i - 1].bytes <= init[i].bytes)
        {
          assert init[i - 1] == ss[i - 1] && init[i] == ss[i];
        }
      }
      StoredAgainstCarried(init);
      assert Bytes(ss)[..|ss| - 1] == Bytes(init);
      if init != [] {
        assert ss[|ss| - 1 - 1].run <= ss[|ss| - 1].run;
        assert Final(Bytes(init), 0) == LastBytes(init);
      } else {
        assert Bytes(init) == [];
      }
    }
  }

  // A restart is seen as a drop, or follows a reading of zero.
  predicate RestartShows(ss: seq<Sample>, i: nat)
    requires 0 < i < |ss|
  {
    ss[i - 1].run != ss[i].run ==> ss[i].bytes < ss[i - 1].bytes || ss[i - 1].bytes == 0
  }

  // All of it is stored exactly when every restart shows.
  lemma StoredIsCarriedIff(ss: seq<Sample>)
    requires CountsUp(ss)
    ensures Deltas(0, Bytes(ss)) <= Carried(ss)
    ensures Deltas(0, Bytes(ss)) == Carried(ss) <==> forall i :: 0 < i < |ss| ==> RestartShows(ss, i)
  {
    hide RestartShows, Carried, Deltas, Hidden, CountsUp;
    StoredAgainstCarried(ss);
    NothingHidden(ss);
  }

  lemma {:induction false} NothingHidden(ss: seq<Sample>)
    ensures Hidden(ss) == 0 <==> forall i :: 0 < i < |ss| ==> RestartShows(ss, i)
  {
    if |ss| >= 2 {
      var init := ss[..|ss| - 1];
      NothingHidden(init);
      forall i | 0 < i < |init| ensures RestartShows(ss, i) <==> RestartShows(init, i) { }
      assert RestartShows(ss, |ss| - 1) <==> Hidden(ss) == Hidden(init);
    }
  }

  // ---- byte caps -----------------------------------------------------------------------

  datatype User = User(email: string, enabled: bool, cap: int, used: nat)

  predicate Capped(u: User) { u.enabled && u.cap > 0 }
  predicate Over(u: User) { u.used >= u.cap }

  function CapsAfter(overCap: set<string>, users: seq<User>): set<string> {
    if users == [] then overCap
    else
      var s, u := CapsAfter(overCap, users[..|users| - 1]), users[|users| - 1];
      if !Capped(u) then s else if Over(u) then s + {u.email} else s - {u.email}
  }

  class CapWatch {
    var overCap: set<string>

    constructor ()
      ensures overCap == {}
    {
      overCap := {};
    }

    // Notes who is over their cap; a reconcile is due when that changes.
    method EnforceCaps(users: seq<User>) returns (trigger: bool)
      requires forall i, j :: 0 <= i < j < |users| ==> users[i].email != users[j].email
      modifies this
      ensures overCap == CapsAfter(old(overCap), users)
      ensures trigger <==> overCap != old(overCap)
    {
      trigger := false;
      for i := 0 to |users|
        invariant overCap == CapsAfter(old(overCap), users[..i])
        invariant trigger <==> overCap != old(overCap)
        invariant forall e :: (forall j :: 0 <= j < i ==> users[j].email != e) ==> (e in overCap <==> e in old(overCap))
      {
        assert users[..i + 1][..i] == users[..i];
        var u := users[i];
        if !u.enabled || u.cap <= 0 { continue; }
        var over := u.used >= u.cap;
        assert u.email in overCap <==> u.email in old(overCap);
        if over && u.email !in overCap {
          overCap := overCap + {u.email};
          trigger := true;
        } else if !over && u.email in overCap {
          overCap := overCap - {u.email};
          trigger := true;
        }
      }
      assert users[..|users|] == users;
    }
  }

  // After a check, exactly the capped users over their cap are noted, and
  // everyone else is left as they were.
  lemma {:induction false} CapsAre(overCap: set<string>, users: seq<User>, e: string)
    requires forall i, j :: 0 <= i < j < |users| ==> users[i].email != users[j].email
    ensures forall i :: 0 <= i < |users| && users[i].email == e && users[i].enabled && users[i].cap > 0 ==>
              (e in CapsAfter(overCap, users) <==> users[i].used >= users[i].cap)
    ensures (forall i :: 0 <= i < |users| && users[i].enabled && users[i].cap > 0 ==> users[i].email != e) ==>
              (e in CapsAfter(overCap, users) <==> e in overCap)
  {
    if users != [] {
      var init := users[..|users| - 1];
      assert forall i :: 0 <= i < |init| ==> init[i] == users[i];
      CapsAre(overCap, init, e);
    }
  }

  // Checking again with nothing changed finds nothing to do: no reconcile at every poll.
  lemma CapsSettle(overCap: set<string>, users: seq<User>)
    requires forall i, j :: 0 <= i < j < |users| ==> users[i].email != users[j].email
    ensures CapsAfter(CapsAfter(overCap, users), users) == CapsAfter(overCap, users)
  {
    forall e ensures e in CapsAfter(CapsAfter(overCap, users), users) <==> e in CapsAfter(overCap, users) {
      CapsAre(overCap, users, e);
      CapsAre(CapsAfter(overCap, users), users, e);
    }
  }
}
