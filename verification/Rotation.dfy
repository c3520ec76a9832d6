// A live apply adds before it removes: when a balancer is left with nothing to
// spread over in the middle of it (daemon/xray_live.go: applyLiveLocked).
module Rotation {
  import opened Wrappers
  import opened Text
  import opened Sorting
  import opened Tags
  import opened XrayConfig
  import opened Generate
  import opened RoutingTable
  import opened FailClosed
  import opened LivePlan
  import opened LiveApply
  import opened NoLeak
  import opened OwnPool

  // The balancer of this tag, if one is in force, catches an outbound that is there.
  ghost predicate Serves(p: Process, balTag: string) {
    var b := BalancerFor(p.routing.balancers, balTag);
    b.Some? ==> Candidates(p, b.value) != {}
  }

  // What is taken down before anything goes up: changed under its tag, or down
  // with its dialer.
  function DownFirst(was: LiveConfig, want: LiveConfig): set<string> {
    (Missing(was.outbounds, want.outbounds) + TakenDown(was, want)) * was.outbounds.Keys
  }

  // Some old outbound the balancer catches is not taken down first.
  ghost predicate Outlives(was: LiveConfig, want: LiveConfig, b: Balancer) {
    exists t :: t in was.outbounds && Caught(b, t) && t !in DownFirst(was, want)
  }

  lemma DownsAre(p: Plan, was: LiveConfig, want: LiveConfig)
    requires IsLivePlan(p, was, want)
    ensures Elems(StagesOf(p).downs) == DownFirst(was, want)
  {
    StagesStaged(p, was, want);
    PlanAdds(p, was, want);
    hide StagesOf, KeyOrder, Merged, Missing, TakenDown;
  }

  // ---- which outbounds are there after k calls ------------------------------------------

  ghost predicate Indices(p: Plan, was: LiveConfig, want: LiveConfig, c2: nat, c3: nat, c5: nat, c7: nat)
    requires IsLivePlan(p, was, want)
  {
    var st := StagesOf(p);
    && c2 == CallsBefore(st, 2) && c3 == CallsBefore(st, 3) && c5 == CallsBefore(st, 5) && c7 == CallsBefore(st, 7)
    && c2 == |st.downs| && c3 == c2 + |st.ups| && c3 <= c5 <= c7 <= |Calls(p, was, want)| == c7 + |st.gone|
    && (st.swap ==> c5 < c7)
  }

  lemma CallCount(p: Plan, was: LiveConfig, want: LiveConfig)
    requires IsLivePlan(p, was, want)
    ensures |Calls(p, was, want)| == CallsBefore(StagesOf(p), 8)
  {
    StagesStaged(p, was, want);
    hide StagesOf, IsLivePlan, Script, CallsBefore;
    ScriptAt(StagesOf(p), want, 0);
  }

  lemma IndicesOf(p: Plan, was: LiveConfig, want: LiveConfig) returns (c2: nat, c3: nat, c5: nat, c7: nat)
    requires IsLivePlan(p, was, want)
    ensures Indices(p, was, want, c2, c3, c5, c7)
  {
    var st := StagesOf(p);
    CallCount(p, was, want);
    hide StagesOf, IsLivePlan, Script, Calls;
    c2, c3, c5, c7 := CallsBefore(st, 2), CallsBefore(st, 3), CallsBefore(st, 5), CallsBefore(st, 7);
  }

  lemma RoutingAt(p: Plan, was: LiveConfig, want: LiveConfig, k: nat, c2: nat, c3: nat, c5: nat, c7: nat)
    requires Tagged(want) && IsLivePlan(p, was, want) && Indices(p, was, want, c2, c3, c5, c7) &&
             k <= |Calls(p, was, want)|
    ensures k <= c5 ==> After(p, was, want, k).routing == was.routing
    ensures k > c5 ==> After(p, was, want, k).routing == want.routing
  {
    assert StagesOf(p).swap == (was.routing != want.routing);
    StagesStaged(p, was, want);
    hide StagesOf, IsLivePlan, Script, Calls, After, Swapped, First;
    AfterIsStateAt(p, was, want, k);
  }

  lemma OutboundsAt(p: Plan, was: LiveConfig, want: LiveConfig, k: nat)
    requires Tagged(want) && IsLivePlan(p, was, want) && k <= |Calls(p, was, want)|
    ensures var st := StagesOf(p);
            && Elems(st.ups) <= want.outbounds.Keys
            && First(st.ups, k - CallsBefore(st, 2)) <= Elems(st.ups)
            && After(p, was, want, k).outbounds ==
               Swapped(was.outbounds, want.outbounds, First(st.downs, k), First(st.ups, k - CallsBefore(st, 2)),
                       First(st.gone, k - CallsBefore(st, 7)))
  {
    var st := StagesOf(p);
    StagesStaged(p, was, want);
    FirstPart(st, k);
    hide StagesOf, IsLivePlan, Script, Calls, After, Swapped, First, CallsBefore;
    AfterIsStateAt(p, was, want, k);
  }

  // Until the last stage, what is not taken down first stays.
  lemma StaysUp(p: Plan, was: LiveConfig, want: LiveConfig, k: nat, t: string)
    requires Tagged(want) && IsLivePlan(p, was, want) && k <= |Calls(p, was, want)|
    requires t in was.outbounds && t !in DownFirst(was, want) && k <= CallsBefore(StagesOf(p), 7)
    ensures t in After(p, was, want, k).outbounds
  {
    var st := StagesOf(p);
    DownsAre(p, was, want);
    OutboundsAt(p, was, want, k);
    FirstStep(st.gone, k - CallsBefore(st, 7));
    FirstParts(st, k);
    hide IsLivePlan, Calls, After, StagesOf, First, CallsBefore, DownFirst;
  }

  // From the end of the second stage on, everything wanted is up.
  lemma AllUp(p: Plan, was: LiveConfig, want: LiveConfig, k: nat, t: string)
    requires Tagged(want) && IsLivePlan(p, was, want) && CallsBefore(StagesOf(p), 3) <= k <= |Calls(p, was, want)|
    requires t in want.outbounds
    ensures t in After(p, was, want, k).outbounds
  {
    var st := StagesOf(p);
    StagesStaged(p, was, want);
    OutboundsAt(p, was, want, k);
    FirstStep(st.ups, k - CallsBefore(st, 2));
    FirstParts(st, k);
    assert k - CallsBefore(st, 2) >= |st.ups|;
    hide IsLivePlan, Calls, After, StagesOf, First, CallsBefore;
    if t !in Elems(st.ups) { assert t !in Elems(st.gone) && t !in Elems(st.downs); }
  }

  // At the end of the first stage nothing has gone up yet.
  lemma OnlyUntouched(p: Plan, was: LiveConfig, want: LiveConfig, t: string)
    requires Tagged(want) && IsLivePlan(p, was, want) && CallsBefore(StagesOf(p), 2) <= |Calls(p, was, want)|
    requires t in After(p, was, want, CallsBefore(StagesOf(p), 2)).outbounds
    ensures t in was.outbounds && t !in DownFirst(was, want)
  {
    var st := StagesOf(p);
    var k := CallsBefore(st, 2);
    DownsAre(p, was, want);
    OutboundsAt(p, was, want, k);
    FirstStep(st.ups, 0);
    FirstStep(st.downs, k);
    hide IsLivePlan, Calls, After, StagesOf, First, DownFirst;
  }

  lemma OnlyWanted(p: Plan, was: LiveConfig, want: LiveConfig, t: string, c2: nat, c3: nat, c5: nat, c7: nat)
    requires Tagged(want) && IsLivePlan(p, was, want) && Indices(p, was, want, c2, c3, c5, c7)
    requires t in After(p, was, want, |Calls(p, was, want)|).outbounds
    ensures t in want.outbounds
  {
    var st := StagesOf(p);
    StagesStaged(p, was, want);
    OutboundsAt(p, was, want, |Calls(p, was, want)|);
    FirstStep(st.gone, |st.gone|);
    hide IsLivePlan, Calls, After, StagesOf, First, CallsBefore;
  }

  // ---- never empty -------------------------------------------------------------------------

  lemma OldServes(p: Plan, was: LiveConfig, want: LiveConfig, balTag: string, k: nat, b: Balancer)
    requires Tagged(want) && IsLivePlan(p, was, want) && k <= |Calls(p, was, want)| && k <= CallsBefore(StagesOf(p), 7)
    requires After(p, was, want, k).routing == was.routing && BalancerFor(was.routing.balancers, balTag) == Some(b)
    requires Outlives(was, want, b)
    ensures Serves(After(p, was, want, k), balTag)
  {
    hide IsLivePlan, Calls, After, StagesOf, DownFirst, BalancerFor, Caught;
    var t :| t in was.outbounds && Caught(b, t) && t !in DownFirst(was, want);
    StaysUp(p, was, want, k, t);
    assert t in Candidates(After(p, was, want, k), b);
  }

  lemma NewServes(p: Plan, was: LiveConfig, want: LiveConfig, balTag: string, k: nat)
    requires Tagged(want) && IsLivePlan(p, was, want) && CallsBefore(StagesOf(p), 3) <= k <= |Calls(p, was, want)|
    requires After(p, was, want, k).routing == want.routing && Serves(Running(want), balTag)
    ensures Serves(After(p, was, want, k), balTag)
  {
    hide IsLivePlan, Calls, After, StagesOf, BalancerFor, Caught;
    var b := BalancerFor(want.routing.balancers, balTag);
    if b.Some? {
      var t :| t in Candidates(Running(want), b.value);
      AllUp(p, was, want, k, t);
      assert t in Candidates(After(p, was, want, k), b.value);
    }
  }

  // Over a whole live apply, the balancer in force always has an outbound to send
  // to exactly when, besides having one in the new config, not all the old ones it
  // catches are taken down first.
  lemma NeverEmptyIff(p: Plan, was: LiveConfig, want: LiveConfig, balTag: string)
    requires Tagged(want) && IsLivePlan(p, was, want)
    ensures (forall k: nat :: k <= |Calls(p, was, want)| ==> Serves(After(p, was, want, k), balTag)) <==>
            var b := BalancerFor(was.routing.balancers, balTag);
            (b.Some? ==> Outlives(was, want, b.value)) && Serves(Running(want), balTag)
  {
    var c2, c3, c5, c7 := IndicesOf(p, was, want);
    assert StagesOf(p).swap == (was.routing != want.routing);
    hide IsLivePlan, Calls, After, StagesOf, BalancerFor, Outlives, Serves, CallsBefore;
    var b := BalancerFor(was.routing.balancers, balTag);
    if forall k: nat :: k <= |Calls(p, was, want)| ==> Serves(After(p, was, want, k), balTag) {
      EmptyAfterDowns(p, was, want, balTag, c2, c3, c5, c7);
      EmptyAtEnd(p, was, want, balTag, c2, c3, c5, c7);
    }
    if (b.Some? ==> Outlives(was, want, b.value)) && Serves(Running(want), balTag) {
      forall k: nat | k <= |Calls(p, was, want)| ensures Serves(After(p, was, want, k), balTag) {
        ServesAt(p, was, want, balTag, k, c2, c3, c5, c7);
      }
    }
  }

  lemma ServesAt(p: Plan, was: LiveConfig, want: LiveConfig, balTag: string, k: nat, c2: nat, c3: nat, c5: nat, c7: nat)
    requires Tagged(want) && IsLivePlan(p, was, want) && k <= |Calls(p, was, want)| &&
             Indices(p, was, want, c2, c3, c5, c7)
    requires BalancerFor(was.routing.balancers, balTag).Some? ==>
               Outlives(was, want, BalancerFor(was.routing.balancers, balTag).value)
    requires Serves(Running(want), balTag)
    ensures Serves(After(p, was, want, k), balTag)
  {
    RoutingAt(p, was, want, k, c2, c3, c5, c7);
    var b := BalancerFor(was.routing.balancers, balTag);
    if k > c5 {
      NewServes(p, was, want, balTag, k);
    } else if b.Some? {
      hide IsLivePlan, Calls, After, StagesOf, BalancerFor, Outlives, Serves;
      OldServes(p, was, want, balTag, k, b.value);
    }
  }

  lemma EmptyAfterDowns(p: Plan, was: LiveConfig, want: LiveConfig, balTag: string, c2: nat, c3: nat, c5: nat, c7: nat)
    requires Tagged(want) && IsLivePlan(p, was, want) && Indices(p, was, want, c2, c3, c5, c7)
    requires Serves(After(p, was, want, c2), balTag)
    ensures var b := BalancerFor(was.routing.balancers, balTag); b.Some? ==> Outlives(was, want, b.value)
  {
    RoutingAt(p, was, want, c2, c2, c3, c5, c7);
    hide IsLivePlan, Calls, After, StagesOf, BalancerFor, DownFirst, Caught;
    var b := BalancerFor(was.routing.balancers, balTag);
    if b.Some? {
      var t :| t in Candidates(After(p, was, want, c2), b.value);
      OnlyUntouched(p, was, want, t);
    }
  }

  lemma EmptyAtEnd(p: Plan, was: LiveConfig, want: LiveConfig, balTag: string, c2: nat, c3: nat, c5: nat, c7: nat)
    requires Tagged(want) && IsLivePlan(p, was, want) && Indices(p, was, want, c2, c3, c5, c7)
    requires Serves(After(p, was, want, |Calls(p, was, want)|), balTag)
    ensures Serves(Running(want), balTag)
  {
    var n := |Calls(p, was, want)|;
    assert StagesOf(p).swap == (was.routing != want.routing);
    RoutingAt(p, was, want, n, c2, c3, c5, c7);
    hide IsLivePlan, Calls, After, StagesOf, BalancerFor, Caught;
    var b := BalancerFor(want.routing.balancers, balTag);
    if b.Some? {
      var t :| t in Candidates(After(p, was, want, n), b.value);
      OnlyWanted(p, was, want, t, c2, c3, c5, c7);
      assert t in Candidates(Running(want), b.value);
    }
  }

  // So a full rotation, none of whose old members is wanted any more, is never
  // empty in the middle.
  lemma FullRotation(p: Plan, was: LiveConfig, want: LiveConfig, balTag: string, b: Balancer, k: nat)
    requires Tagged(want) && IsLivePlan(p, was, want) && k <= |Calls(p, was, want)|
    requires BalancerFor(was.routing.balancers, balTag) == Some(b) && Serves(Running(was), balTag)
    requires forall t :: t in was.outbounds && Caught(b, t) ==> t !in want.outbounds
    requires Serves(Running(want), balTag)
    ensures Serves(After(p, was, want, k), balTag)
  {
    var t :| t in was.outbounds && Caught(b, t);
    assert Outlives(was, want, b) by { assert t !in DownFirst(was, want); }
    hide IsLivePlan, Calls, After, BalancerFor, Outlives, Serves;
    NeverEmptyIff(p, was, want, balTag);
  }

  // ---- the pools of compiled configs -----------------------------------------------------

  // Some loaded member's outbound is the same as before, or not wanted any more.
  ghost predicate KeepsOrDrops(was: LiveConfig, want: LiveConfig, b: Balancer) {
    exists t :: t in was.outbounds && Caught(b, t) &&
                (t !in want.outbounds || want.outbounds[t] == was.outbounds[t])
  }

  lemma MembersOutliveIff(was: LiveConfig, want: LiveConfig, b: Balancer)
    requires forall t :: t in was.outbounds && Caught(b, t) ==> was.outbounds[t].dialer == ""
    ensures Outlives(was, want, b) <==> KeepsOrDrops(was, want, b)
  {
    hide Caught;
    forall t | t in was.outbounds && Caught(b, t)
      ensures t !in DownFirst(was, want) <==> t !in want.outbounds || want.outbounds[t] == was.outbounds[t]
    {
    }
  }

  // A slot's balancer has something to catch exactly when a member is loaded.
  lemma CatchesSome(i: Inputs, lc: LiveConfig, s: Slot, m: string)
    requires Runs(i, lc) && s in i.slots && m in SlotMasters(s)
    ensures Serves(Running(lc), SlotBalTag(s.index, m)) <==> LoadedMembers(s.members) != []
  {
    hide Runs, SlotBalTag, LoadedMembers, SlotMasters, BalancerFor, Caught;
    var b := SlotBalances(i, lc, s, m);
    if LoadedMembers(s.members) != [] {
      var o := SomeCaught(i, lc, s, m, b);
      assert o.tag in Candidates(Running(lc), b);
    } else if t: string :| t in Candidates(Running(lc), b) {
      NoneToCatch(i, lc, s, b, t);
    }
  }

  lemma NoneToCatch(i: Inputs, lc: LiveConfig, s: Slot, b: Balancer, t: string)
    requires Runs(i, lc) && LoadedMembers(s.members) == []
    requires forall o :: o in Compilation(i).value.outbounds && Caught(b, o.tag) ==>
               o in MemberOutbounds(s.index, s.members)
    requires t in lc.outbounds
    ensures !Caught(b, t)
  {
    hide Compiled, Caught;
    assert lc.outbounds[t] in Compilation(i).value.outbounds && lc.outbounds[t].tag == t;
  }

  lemma SomeCaught(i: Inputs, lc: LiveConfig, s: Slot, m: string, b: Balancer) returns (o: Outbound)
    requires Runs(i, lc) && s in i.slots && LoadedMembers(s.members) != []
    requires BalancerFor(lc.routing.balancers, SlotBalTag(s.index, m)) == Some(b)
    ensures o.tag in lc.outbounds && Caught(b, o.tag)
  {
    var n := InForce(i, lc, s, m, b);
    PoolParts(i, s);
    o := MemberOutbounds(s.index, s.members)[0];
    hide Compiled, SlotBalTag, BalancerFor, LoadedMembers, SlotBalancer, MemberOutbounds;
    o := CaughtOf(s, n);
    Named(Compilation(i).value, lc, o);
  }

  // The balancer in force under a slot's tag is that slot's, for one of its masters.
  lemma InForce(i: Inputs, lc: LiveConfig, s: Slot, m: string, b: Balancer) returns (n: string)
    requires Runs(i, lc) && s in i.slots && BalancerFor(lc.routing.balancers, SlotBalTag(s.index, m)) == Some(b)
    ensures b == SlotBalancer(s.index, n, PickOf(s, n), LoadedKeys(s.members), FirstTag(s.index, s.members))
  {
    var sl := SortBy(ByIndex(), i.slots);
    hide EntryOutbounds, IfaceOutbounds, FrontOf, PoolsOf, SlotNames, SlotBalTag, SlotMasters, SlotBalancer;
    BalancersFrom(sl, i.opts);
    SortedSame(i.entries, i.inbounds, i.slots);
    var t :| t in sl && b in SlotBalancers(t);
    var j :| 0 <= j < |SlotMasters(t)| && b == SlotBalancers(t)[j];
    n := SlotMasters(t)[j];
    BalancerTag(t, j);
    SlotBalTagInjective(t.index, n, s.index, m);
    SameIndexSame(i.slots, s, t);
  }

  // A balancer over a loaded pool catches one of its members.
  lemma CaughtOf(s: Slot, n: string) returns (o: Outbound)
    requires LoadedMembers(s.members) != []
    ensures o in MemberOutbounds(s.index, s.members)
    ensures Caught(SlotBalancer(s.index, n, PickOf(s, n), LoadedKeys(s.members), FirstTag(s.index, s.members)), o.tag)
  {
    hide SlotMemberTag, SlotOutPrefix, SlotBalTag, LoadedMembers;
    var pick, keys := PickOf(s, n), LoadedKeys(s.members);
    var b := SlotBalancer(s.index, n, pick, keys, FirstTag(s.index, s.members));
    var picked := PickedTags(s.index, pick.picked, keys);
    if picked != [] {
      PickedTagsAre(s.index, pick.picked, keys);
      assert picked[0] in picked;
      var k :| k in pick.picked && k in keys && picked[0] == SlotMemberTag(s.index, k);
      LoadedKeyTagged(s, k);
      o :| o in MemberOutbounds(s.index, s.members) && o.tag == picked[0];
      assert b.selectors[0] == picked[0] && b.selectors[0] in b.selectors;
    } else {
      o := MemberOutbounds(s.index, s.members)[0];
      assert o in MemberOutbounds(s.index, s.members);
      MemberTagged(s, o);
      assert SlotOutPrefix(s.index) in b.selectors;
    }
  }

  // Between two compiled configs that both give a slot's master its balancer: it
  // always has a member to send to exactly when members are loaded after the
  // change and some member it had before is kept as it was or dropped.
  lemma PoolNeverEmptyIff(
      before: Inputs, after: Inputs, was: LiveConfig, want: LiveConfig, p: Plan, s: Slot, s': Slot, m: string,
          b: Balancer)
    requires Runs(before, was) && s in before.slots && m in SlotMasters(s)
    requires Runs(after, want) && s' in after.slots && m in SlotMasters(s') && s'.index == s.index
    requires IsLivePlan(p, was, want) && BalancerFor(was.routing.balancers, SlotBalTag(s.index, m)) == Some(b)
    ensures Tagged(want)
    ensures (forall k: nat :: k <= |Calls(p, was, want)| ==>
               Serves(After(p, was, want, k), SlotBalTag(s.index, m))) <==>
            KeepsOrDrops(was, want, b) && LoadedMembers(s'.members) != []
  {
    WantTagged(after, want);
    CatchesSome(after, want, s', m);
    var b' := SlotBalances(before, was, s, m);
    assert b' == b;
    CaughtPlain(before, was, s, b);
    hide Runs, IsLivePlan, Calls, After, SlotBalTag, SlotMasters, LoadedMembers, BalancerFor, Serves, Outlives,
         KeepsOrDrops,
         Caught, Tagged;
    MembersOutliveIff(was, want, b);
    NeverEmptyIff(p, was, want, SlotBalTag(s.index, m));
  }

  lemma WantTagged(i: Inputs, lc: LiveConfig)
    requires Runs(i, lc)
    ensures Tagged(lc)
  {
    hide Compiled;
  }

  lemma CaughtPlain(i: Inputs, lc: LiveConfig, s: Slot, b: Balancer)
    requires Runs(i, lc) && s in i.slots
    requires forall o :: o in Compilation(i).value.outbounds && Caught(b, o.tag) ==>
               o in MemberOutbounds(s.index, s.members)
    ensures forall t :: t in lc.outbounds && Caught(b, t) ==> lc.outbounds[t].dialer == ""
  {
    forall t | t in lc.outbounds && Caught(b, t) ensures lc.outbounds[t].dialer == "" {
      assert lc.outbounds[t] in Compilation(i).value.outbounds && lc.outbounds[t].tag == t;
      PoolMember(i, lc, s, lc.outbounds[t]);
    }
  }
}
