// What holds in every state on the way from one config to the next: each dialer
// is present whenever something dials through it, and nothing routed to a
// master ever leaves from this box.
module LiveSafety {
  import opened Wrappers
  import opened Text
  import opened Sorting
  import opened Tags
  import opened XrayConfig
  import opened Generate
  import opened RoutingTable
  import opened FailClosed
  import opened LivePlan
  import opened LiveApply

  // ---- dialers are present ---------------------------------------------------

  // Everything that dials through an outbound finds it.
  ghost predicate Attached(outbounds: map<string, Outbound>) {
    forall t :: t in outbounds ==> outbounds[t].dialer == "" || outbounds[t].dialer in outbounds
  }

  // What something dials through dials nothing itself, in either config.
  ghost predicate PlainTargets(was: map<string, Outbound>, want: map<string, Outbound>) {
    && (forall t :: t in was && was[t].dialer != "" ==>
          Plain(was, was[t].dialer) && Plain(want, was[t].dialer))
    && (forall t :: t in want && want[t].dialer != "" ==>
          Plain(was, want[t].dialer) && Plain(want, want[t].dialer))
  }

  predicate Plain(m: map<string, Outbound>, t: string) {
    t in m ==> m[t].dialer == ""
  }

  // An outbound the new config drops whose dialer it replaces.
  predicate Orphaned(was: map<string, Outbound>, want: map<string, Outbound>, t: string) {
    && t in was && t !in want && was[t].dialer != ""
    && was[t].dialer in was && was[t].dialer in want && was[was[t].dialer] != want[was[t].dialer]
  }

  // In `part`, whatever dials comes no later than whatever does not.
  ghost predicate DependentsIn(dialerOf: map<string, string>, all: set<string>, part: set<string>) {
    forall t, d :: t in all && Dependent(dialerOf)(t) && d in part && !Dependent(dialerOf)(d) ==> t in part
  }

  ghost predicate PlainIn(dialerOf: map<string, string>, all: set<string>, part: set<string>) {
    forall t, d :: t in part && Dependent(dialerOf)(t) && d in all && !Dependent(dialerOf)(d) ==> d in part
  }

  // The order splits at one point: dependents before, the rest after.
  lemma SplitPoint(dialerOf: map<string, string>, tags: seq<string>) returns (n: nat)
    requires Distinct(tags)
    ensures var s := DependentsFirst(dialerOf, tags);
            && |s| == |tags| && Elems(s) == Elems(tags)
            && forall i :: 0 <= i < |s| ==> (Dependent(dialerOf)(s[i]) <==> i < n)
  {
    var p := Dependent(dialerOf);
    var s := DependentsFirst(dialerOf, tags);
    SortPartition(p, tags);
    KeepElems(p, tags);
    KeepElems(Not(p), tags);
    OrderKeeps(dialerOf, tags);
    var yes, no := Keep(p, tags), Keep(Not(p), tags);
    n := |yes|;
    forall i | 0 <= i < |s| ensures p(s[i]) <==> i < n {
      if i < n { assert s[i] == yes[i] && yes[i] in yes; } else { assert s[i] == no[i - n] && no[i - n] in no; }
    }
  }

  lemma OrderedDependents(dialerOf: map<string, string>, tags: seq<string>, k: int)
    requires Distinct(tags)
    ensures DependentsIn(dialerOf, Elems(tags), First(DependentsFirst(dialerOf, tags), k))
  {
    var s := DependentsFirst(dialerOf, tags);
    var n := SplitPoint(dialerOf, tags);
    var m := Clamp(k, |s|);
    forall t, d | t in Elems(tags) && Dependent(dialerOf)(t) && d in First(s, k) && !Dependent(dialerOf)(d)
      ensures t in First(s, k)
    {
      assert t in Elems(s);
      var i :| 0 <= i < |s| && s[i] == t;
      var j :| 0 <= j < m && s[j] == d;
      assert s[..m][i] == t;
    }
  }

  lemma OrderedPlain(dialerOf: map<string, string>, tags: seq<string>, k: int)
    requires Distinct(tags)
    ensures PlainIn(dialerOf, Elems(tags), First(Reversed(DependentsFirst(dialerOf, tags)), k))
  {
    var s := DependentsFirst(dialerOf, tags);
    var r := Reversed(s);
    var n := SplitPoint(dialerOf, tags);
    var m := Clamp(k, |r|);
    forall t, d | t in First(r, k) && Dependent(dialerOf)(t) && d in Elems(tags) && !Dependent(dialerOf)(d)
      ensures d in First(r, k)
    {
      assert d in Elems(s);
      var j :| 0 <= j < |s| && s[j] == d;
      var i :| 0 <= i < m && r[i] == t;
      assert r[i] == s[|s| - 1 - i];
      assert r[..m][|s| - 1 - j] == d;
    }
  }

  // How far each stage has got, as sets.
  ghost predicate MidOrder(p: Plan, down: set<string>, up: set<string>, gone: set<string>)
    requires p.Live?
  {
    && down <= Elems(p.rmOut) * Elems(p.addOut) && up <= Elems(p.addOut) && gone <= Elems(p.rmOut) - Elems(p.addOut)
    && (up != {} || gone != {} ==> down == Elems(p.rmOut) * Elems(p.addOut))
    && (gone != {} ==> up == Elems(p.addOut))
    && DependentsIn(p.dialerOf, Elems(p.rmOut) * Elems(p.addOut), down)
    && PlainIn(p.dialerOf, Elems(p.addOut), up)
    && DependentsIn(p.dialerOf, Elems(p.rmOut) - Elems(p.addOut), gone)
  }

  ghost predicate MidApply(p: Plan, was: LiveConfig, want: LiveConfig, down: set<string>, up: set<string>,
                           gone: set<string>)
  {
    IsLivePlan(p, was, want) && MidOrder(p, down, up, gone)
  }

  lemma StagesMid(p: Plan, k: nat)
    requires p.Live? && Distinct(p.rmOut) && Distinct(p.addOut)
    ensures var st := StagesOf(p);
            MidOrder(p, First(st.downs, k), First(st.ups, k - CallsBefore(st, 2)),
                     First(st.gone, k - CallsBefore(st, 7)))
  {
    var st := StagesOf(p);
    hide First, StagesOf, CallsBefore, DependentsIn, PlainIn;
    StagesOrdered(p, k, k - CallsBefore(st, 2), k - CallsBefore(st, 7));
    StagePrefixes(st, k);
  }

  // A stage starts only when the earlier ones are done.
  lemma StagePrefixes(st: Stages, k: nat)
    ensures var down, up, gone := First(st.downs, k), First(st.ups, k - CallsBefore(st, 2)),
            First(st.gone, k - CallsBefore(st, 7));
            && (up != {} || gone != {} ==> down == Elems(st.downs))
            && (gone != {} ==> up == Elems(st.ups))
  {
    hide First;
    FirstStep(st.downs, k);
    FirstStep(st.ups, k - CallsBefore(st, 2));
    FirstStep(st.gone, k - CallsBefore(st, 7));
  }

  lemma StagesOrdered(p: Plan, i: int, j: int, l: int)
    requires p.Live? && Distinct(p.rmOut) && Distinct(p.addOut)
    ensures var st := StagesOf(p);
            && Elems(st.downs) == Elems(p.rmOut) * Elems(p.addOut) && First(st.downs, i) <= Elems(st.downs)
            && Elems(st.ups) == Elems(p.addOut) && First(st.ups, j) <= Elems(st.ups)
            && Elems(st.gone) == Elems(p.rmOut) - Elems(p.addOut) && First(st.gone, l) <= Elems(st.gone)
            && DependentsIn(p.dialerOf, Elems(p.rmOut) * Elems(p.addOut), First(st.downs, i))
            && PlainIn(p.dialerOf, Elems(p.addOut), First(st.ups, j))
            && DependentsIn(p.dialerOf, Elems(p.rmOut) - Elems(p.addOut), First(st.gone, l))
  {
    hide First, DependentsFirst, Reversed, Dependent, Among, DependentsIn, PlainIn;
    var both, left := Keep(Among(Elems(p.addOut)), p.rmOut), Keep(Not(Among(Elems(p.addOut))), p.rmOut);
    KeepIs(Elems(p.addOut), p.rmOut);
    OrderedDependents(p.dialerOf, both, i);
    OrderedDependents(p.dialerOf, left, l);
    OrderedPlain(p.dialerOf, p.addOut, j);
    OrderKeeps(p.dialerOf, both);
    OrderKeeps(p.dialerOf, left);
    OrderKeeps(p.dialerOf, p.addOut);
    ReversedKeeps(DependentsFirst(p.dialerOf, p.addOut));
    FirstSubset(StagesOf(p).downs, i);
    FirstSubset(StagesOf(p).ups, j);
    FirstSubset(StagesOf(p).gone, l);
  }

  lemma PlanDistinct(p: Plan, was: LiveConfig, want: LiveConfig)
    requires IsLivePlan(p, was, want)
    ensures Distinct(p.rmOut) && Distinct(p.addOut)
  {
    SortedDistinct(p.rmOut);
    SortedDistinct(p.addOut);
  }

  lemma FirstSubset(tags: seq<string>, k: int)
    ensures First(tags, k) <= Elems(tags)
  {
  }

  lemma MidAttached(p: Plan, was: LiveConfig, want: LiveConfig, down: set<string>, up: set<string>, gone: set<string>,
                    t: string)
    requires MidApply(p, was, want, down, up, gone)
    requires Attached(was.outbounds) && Attached(want.outbounds) && PlainTargets(was.outbounds, want.outbounds)
    requires !Orphaned(was.outbounds, want.outbounds, t)
    requires up <= want.outbounds.Keys
    requires t in Swapped(was.outbounds, want.outbounds, down, up, gone)
    ensures var d := Swapped(was.outbounds, want.outbounds, down, up, gone)[t].dialer;
            d == "" || d in Swapped(was.outbounds, want.outbounds, down, up, gone)
  {
    hide KeyOrder;
    var mid := Swapped(was.outbounds, want.outbounds, down, up, gone);
    var d := mid[t].dialer;
    if d != "" {
      if t in up {
        UpAttached(p, was, want, down, up, gone, t);
      } else {
        OldAttached(p, was, want, down, up, gone, t);
      }
    }
  }

  lemma UpAttached(p: Plan, was: LiveConfig, want: LiveConfig, down: set<string>, up: set<string>, gone: set<string>,
                   t: string)
    requires MidApply(p, was, want, down, up, gone)
    requires Attached(want.outbounds) && PlainTargets(was.outbounds, want.outbounds)
    requires up <= want.outbounds.Keys && t in up && want.outbounds[t].dialer != ""
    ensures want.outbounds[t].dialer in Swapped(was.outbounds, want.outbounds, down, up, gone)
  {
    hide KeyOrder;
    var d := want.outbounds[t].dialer;
    assert d in want.outbounds && want.outbounds[d].dialer == "" && Plain(was.outbounds, d);
    if d in Elems(p.addOut) {
      assert Dependent(p.dialerOf)(t) && !Dependent(p.dialerOf)(d);
    } else {
      assert d !in Missing(was.outbounds, want.outbounds);
      assert d in was.outbounds;
    }
  }

  lemma OldAttached(p: Plan, was: LiveConfig, want: LiveConfig, down: set<string>, up: set<string>, gone: set<string>,
                    t: string)
    requires MidApply(p, was, want, down, up, gone)
    requires Attached(was.outbounds) && Attached(want.outbounds) && PlainTargets(was.outbounds, want.outbounds)
    requires up <= want.outbounds.Keys && t in was.outbounds && t !in up && t !in down && t !in gone
    requires was.outbounds[t].dialer != "" && !Orphaned(was.outbounds, want.outbounds, t)
    ensures was.outbounds[t].dialer in Swapped(was.outbounds, want.outbounds, down, up, gone)
  {
    hide KeyOrder;
    var d := was.outbounds[t].dialer;
    assert d in was.outbounds && was.outbounds[d].dialer == "" && Plain(want.outbounds, d);
    assert Dependent(p.dialerOf)(t) && !Dependent(p.dialerOf)(d);
    // Were d down to be replaced, or dropped, then so would t be, which dials it.
    if d in down && d !in up { assert false; }
    if d in gone { assert false; }
  }

  // In every state of the apply each outbound's dialer is there, if and only if
  // the new config drops no outbound whose dialer it replaces.
  lemma DialersAlwaysPresent(p: Plan, was: LiveConfig, want: LiveConfig)
    requires Tagged(want) && IsLivePlan(p, was, want)
    requires Attached(was.outbounds) && Attached(want.outbounds) && PlainTargets(was.outbounds, want.outbounds)
    ensures (forall k: nat :: k <= |Calls(p, was, want)| ==> Attached(After(p, was, want, k).outbounds)) <==>
            (forall t :: !Orphaned(was.outbounds, want.outbounds, t))
  {
    hide IsLivePlan, Calls, Orphaned;
    if t :| Orphaned(was.outbounds, want.outbounds, t) {
      OrphanDetached(p, was, want, t);
    } else {
      forall k: nat | k <= |Calls(p, was, want)| ensures Attached(After(p, was, want, k).outbounds) {
        AfterAttached(p, was, want, k);
      }
    }
  }

  lemma AfterAttached(p: Plan, was: LiveConfig, want: LiveConfig, k: nat)
    requires Tagged(want) && IsLivePlan(p, was, want) && k <= |Calls(p, was, want)|
    requires Attached(was.outbounds) && Attached(want.outbounds) && PlainTargets(was.outbounds, want.outbounds)
    requires forall t :: !Orphaned(was.outbounds, want.outbounds, t)
    ensures Attached(After(p, was, want, k).outbounds)
  {
    hide IsLivePlan, Calls, After, MidApply, Swapped, Attached, PlainTargets, Orphaned, Tagged;
    var down, up, gone := AfterSwapped(p, was, want, k);
    SwappedAttached(p, was, want, down, up, gone);
  }

  // What the first k calls have taken down, brought up and finally removed.
  ghost function Parts(p: Plan, k: nat): (set<string>, set<string>, set<string>)
    requires p.Live?
  {
    var st := StagesOf(p);
    (First(st.downs, k), First(st.ups, k - CallsBefore(st, 2)), First(st.gone, k - CallsBefore(st, 7)))
  }

  lemma PartsMid(p: Plan, was: LiveConfig, want: LiveConfig, k: nat)
    requires IsLivePlan(p, was, want)
    ensures var (down, up, gone) := Parts(p, k); MidApply(p, was, want, down, up, gone)
  {
    var st := StagesOf(p);
    PlanDistinct(p, was, want);
    hide IsLivePlan, StagesOf, First, CallsBefore, MidOrder;
    StagesMid(p, k);
  }

  lemma PartsState(p: Plan, was: LiveConfig, want: LiveConfig, k: nat)
    requires Tagged(want) && IsLivePlan(p, was, want) && k <= |Calls(p, was, want)|
    ensures Parts(p, k).1 <= want.outbounds.Keys
    ensures After(p, was, want, k).outbounds ==
            Swapped(was.outbounds, want.outbounds, Parts(p, k).0, Parts(p, k).1, Parts(p, k).2)
  {
    var st := StagesOf(p);
    var (down, up, gone) := Parts(p, k);
    assert down == First(st.downs, k) && up == First(st.ups, k - CallsBefore(st, 2)) &&
        gone == First(st.gone, k - CallsBefore(st, 7));
    hide *;
    AfterIsStateAt(p, was, want, k);
    StateOutbounds(was, want, st, k);
  }

  // Every state of the apply is a stage of the outbound swap.
  lemma AfterSwapped(p: Plan, was: LiveConfig, want: LiveConfig, k: nat)
    returns (down: set<string>, up: set<string>, gone: set<string>)
    requires Tagged(want) && IsLivePlan(p, was, want) && k <= |Calls(p, was, want)|
    ensures MidApply(p, was, want, down, up, gone) && up <= want.outbounds.Keys
    ensures After(p, was, want, k).outbounds == Swapped(was.outbounds, want.outbounds, down, up, gone)
  {
    var (d, u, g) := Parts(p, k);
    down, up, gone := d, u, g;
    hide *;
    PartsMid(p, was, want, k);
    PartsState(p, was, want, k);
  }

  lemma StateOutbounds(was: LiveConfig, want: LiveConfig, st: Stages, k: nat)
    requires Elems(st.ups) <= want.outbounds.Keys && Elems(st.inUps) <= want.inbounds.Keys
    ensures First(st.ups, k - CallsBefore(st, 2)) <= want.outbounds.Keys
    ensures StateAt(was, want, st, k).outbounds ==
            Swapped(was.outbounds, want.outbounds, First(st.downs, k), First(st.ups, k - CallsBefore(st, 2)),
                    First(st.gone, k - CallsBefore(st, 7)))
  {
  }

  lemma SwappedAttached(p: Plan, was: LiveConfig, want: LiveConfig, down: set<string>, up: set<string>,
                        gone: set<string>)
    requires MidApply(p, was, want, down, up, gone) && up <= want.outbounds.Keys
    requires Attached(was.outbounds) && Attached(want.outbounds) && PlainTargets(was.outbounds, want.outbounds)
    requires forall t :: !Orphaned(was.outbounds, want.outbounds, t)
    ensures Attached(Swapped(was.outbounds, want.outbounds, down, up, gone))
  {
    hide MidApply, Swapped, Orphaned, PlainTargets;
    var m := Swapped(was.outbounds, want.outbounds, down, up, gone);
    forall t | t in m ensures m[t].dialer == "" || m[t].dialer in m {
      MidAttached(p, was, want, down, up, gone, t);
    }
  }

  // The state between the two outbound stages, where an orphan dials nothing.
  lemma OrphanDetached(p: Plan, was: LiveConfig, want: LiveConfig, t: string)
    requires Tagged(want) && IsLivePlan(p, was, want) && Orphaned(was.outbounds, want.outbounds, t)
    ensures |StagesOf(p).downs| <= |Calls(p, was, want)|
    ensures !Attached(After(p, was, want, |StagesOf(p).downs|).outbounds)
  {
    var st := StagesOf(p);
    var k := |st.downs|;
    var d := was.outbounds[t].dialer;
    OrphanStages(p, was, want, t);
    hide IsLivePlan, First, StagesOf, Orphaned;
    StagesStaged(p, was, want);
    ScriptAt(st, want, 0);
    AfterIsStateAt(p, was, want, k);
    FirstStep(st.downs, k);
    FirstStep(st.ups, k - CallsBefore(st, 2));
    FirstStep(st.gone, k - CallsBefore(st, 7));
    var mid := After(p, was, want, k).outbounds;
    assert t in mid && mid[t].dialer == d && d !in mid;
  }

  lemma OrphanStages(p: Plan, was: LiveConfig, want: LiveConfig, t: string)
    requires IsLivePlan(p, was, want) && Orphaned(was.outbounds, want.outbounds, t)
    ensures t !in Elems(StagesOf(p).downs) && was.outbounds[t].dialer in Elems(StagesOf(p).downs)
    ensures was.outbounds[t].dialer != "" && t in was.outbounds
  {
    var d := was.outbounds[t].dialer;
    hide StagesOf;
    StagesStaged(p, was, want);
    assert d in StagesOf(p).ups;
    assert d in Elems(StagesOf(p).ups) * was.outbounds.Keys;
  }
}
