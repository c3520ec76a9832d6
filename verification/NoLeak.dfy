// Nothing routed to a master leaves from this box, in any state between two
// compiled configs, whatever the balancers make of their members' health.
module NoLeak {
  import opened Wrappers
  import opened Text
  import opened Sorting
  import opened Tags
  import opened XrayConfig
  import opened Generate
  import opened RoutingTable
  import opened FailClosed
  import opened LivePlan
  import opened LiveApply
  import opened LiveSafety

  // ---- processes made of sound objects -----------------------------------------

  ghost predicate SoundProcess(p: Process) {
    && p.default == "block" && "block" in p.outbounds && p.outbounds["block"] == BLOCK
    && (forall t :: t in p.outbounds ==> p.outbounds[t].tag == t && SoundOutbound(p.outbounds[t]))
    && (forall t :: t in p.inbounds ==> p.inbounds[t].tag == t && SoundInbound(p.inbounds[t]))
    && (forall r :: r in p.routing.rules ==> SoundRule(r))
    && (forall b :: b in p.routing.balancers ==> SoundBalancer(b))
  }

  // An entry that leaves through a hop into a slot, or through block, or nowhere,
  // provided its protocol obeys its dialer.
  ghost predicate Masterly(o: Outbound) {
    o.body.Settings? && (ToLower(o.protocol) == "blackhole" || o.dialer == "block" ||
                         exists m :: o.dialer == DialerTag(m))
  }

  // Not leaving, or leaving by a pool member's tunnel.
  ghost predicate Safe(p: Process, f: Fate) {
    f.LeavesBy? ==> f.tag in p.outbounds && IsMemberOut(p.outbounds[f.tag])
  }

  // A tag no outbound holds, or a member's, or block.
  ghost predicate Harmless(p: Process, tag: string) {
    tag == "block" || (tag in p.outbounds && IsMemberOut(p.outbounds[tag]))
  }

  lemma HarmlessFate(p: Process, tag: string, user: string, x: Behaviour, steps: nat)
    requires SoundProcess(p) && Harmless(p, tag)
    ensures Safe(p, Fates(p, tag, user, x, steps))
  {
    hide SoundInbound, SoundRule, SoundBalancer, SoundOutbound, Handler;
    if tag == "block" { BlackholeBlocks(); }
  }

  lemma BlackholeBlocks()
    ensures ToLower(BLOCK.protocol) == "blackhole"
  {
    LowerIsFixed("blackhole");
  }

  // A present outbound with a slot's prefix is a pool member.
  lemma PrefixedIsMember(p: Process, idx: nat, t: string)
    requires SoundProcess(p) && t in p.outbounds && SlotOutPrefix(idx) <= t
    ensures IsMemberOut(p.outbounds[t])
  {
    var o := p.outbounds[t];
    if o == BLOCK || o == DIRECT || IsEntryOut(o) || IsIfaceOut(o) {
      OutsidePools(o, idx);
      assert false;
    } else if IsDialerOut(o) {
      var i: nat, m, opts :| i < SLOT_COUNT && o == DialerOutbound(i, m, opts);
      TagFamilies(m, "", idx, t);
      assert false;
    }
  }

  // Whatever user logs into a slot is handed to a member or to block.
  lemma SlotHandlerHarmless(p: Process, idx: nat, user: string, h: Health)
    requires SoundProcess(p)
    ensures Harmless(p, Handler(p, SlotInTag(idx), user, h))
  {
    hide SlotInTag, SlotBalTag, DialerEmail, IsMemberOut;
    match RuleFor(p.routing.rules, SlotInTag(idx), user)
    case None =>
    case Some(r) =>
      SlotRuleOnly(r, idx, user);
      match BalancerFor(p.routing.balancers, r.balTag)
      case None =>
      case Some(b) =>
        var i: nat, m :| b.tag == SlotBalTag(i, m) && Confined(i, b);
        ChoiceHarmless(p, b, i, h);
  }

  lemma SlotRuleOnly(r: Rule, idx: nat, user: string)
    requires SoundRule(r) && Matches(r, SlotInTag(idx), user)
    ensures r.ToBalancer?
  {
    if !IsSlotRule(r) {
      var n :| r.inTag == API_TAG || r.inTag == InboundTag(n);
      TagFamilies(n, "", idx, "");
      assert false;
    }
  }

  lemma ChoiceHarmless(p: Process, b: Balancer, idx: nat, h: Health)
    requires SoundProcess(p) && Confined(idx, b)
    ensures var t := Choice(p, b, h); t in p.outbounds ==> Harmless(p, t)
  {
    var t := Choice(p, b, h);
    if t in p.outbounds && t != "block" {
      if t in Candidates(p, b) {
        var s :| s in b.selectors && s <= t;
        assert SlotOutPrefix(idx) <= s <= t;
      }
      PrefixedIsMember(p, idx, t);
    }
  }

  lemma SoundParts(p: Process)
    requires SoundProcess(p)
    ensures forall t :: t in p.outbounds ==> p.outbounds[t].tag == t && SoundOutbound(p.outbounds[t])
  {
  }

  // A dial through a master's hop, present or not, is safe.
  lemma HopSafe(p: Process, m: string, user: string, x: Behaviour, steps: nat)
    requires SoundProcess(p)
    ensures Safe(p, Fates(p, DialerTag(m), user, x, steps))
  {
    hide SlotInTag, SlotBalTag, DialerEmail, DialerTag, Handler, SoundProcess, Fates, SoundOutbound, DialerOutbound,
         Safe;
    SoundParts(p);
    SafeNowhere(p);
    var tag := DialerTag(m);
    FateOf(p, tag, user, x, steps);
    if steps > 0 && tag in p.outbounds {
      var o := p.outbounds[tag];
      DialerOnly(o, m);
      var i: nat, n, opts :| i < SLOT_COUNT && o == DialerOutbound(i, n, opts);
      var inTag, login := HopLogsIn(p, tag, i, n, opts, user, x, steps);
      if Fates(p, tag, user, x, steps) != Nowhere { LoginSafe(p, i, inTag, login, x, steps - 1); }
    }
  }

  // A hop logs in at the inbound listening on its slot's port, if there is one.
  lemma HopLogsIn(p: Process, tag: string, i: nat, m: string, opts: Options, user: string, x: Behaviour, steps: nat)
    returns (inTag: string, login: string)
    requires steps > 0 && tag in p.outbounds && p.outbounds[tag] == DialerOutbound(i, m, opts)
    ensures var f := Fates(p, tag, user, x, steps);
            f != Nowhere ==>
              && Listens(p, inTag, SlotPort(i)) && UserOf(p.inbounds[inTag].clients, DialerId(m)) == Some(login)
              && f == Fates(p, Handler(p, inTag, login, x.health), login, x, steps - 1)
  {
    hide Handler, DialerTag, SlotPort;
    assert ToLower("vless")[0] == 'v';
    inTag, login := "", "";
    if Fates(p, tag, user, x, steps) != Nowhere {
      inTag, login :|
        && Listens(p, inTag, SlotPort(i)) && UserOf(p.inbounds[inTag].clients, DialerId(m)) == Some(login)
        && Fates(p, tag, user, x, steps) == Fates(p, Handler(p, inTag, login, x.health), login, x, steps - 1);
    }
  }

  // Whoever logs in through a slot's port is safe from there on.
  lemma LoginSafe(p: Process, i: nat, inTag: string, user: string, x: Behaviour, steps: nat)
    requires SoundProcess(p) && i < SLOT_COUNT && Listens(p, inTag, SlotPort(i))
    ensures Safe(p, Fates(p, Handler(p, inTag, user, x.health), user, x, steps))
  {
    hide SlotInTag, Handler, Fates;
    var b := p.inbounds[inTag];
    assert SlotPortTaken(b.port) && IsSlotIn(b);
    var j: nat :| j < SLOT_COUNT && b.tag == SlotInTag(j) && b.port == SlotPort(j);
    SlotHandlerHarmless(p, j, user, x.health);
    HarmlessFate(p, Handler(p, inTag, user, x.health), user, x, steps);
  }

  lemma DialerOnly(o: Outbound, m: string)
    requires SoundOutbound(o) && o.tag == DialerTag(m)
    ensures IsDialerOut(o)
  {
    TagFamilies(m, "", 0, "");
    if o == BLOCK || o == DIRECT {
      assert false;
    } else if IsEntryOut(o) {
      var n :| o.tag == EntryTag(n);
      TagFamilies(n, m, 0, "");
      assert false;
    } else if IsIfaceOut(o) {
      var n :| o == IfaceOutbound(n);
      TagFamilies(m, n, 0, "");
      assert false;
    } else if IsMemberOut(o) {
      var i: nat, k :| o.tag == SlotMemberTag(i, k);
      MemberTagPrefix(i, k);
      TagFamilies(m, "", i, o.tag);
      assert false;
    }
  }

  // Traffic handed to a master whose protocol obeys its dialer is safe, and so is
  // traffic whose outbound is missing: the default is block.
  lemma ObedientSafe(p: Process, tag: string, user: string, x: Behaviour, steps: nat)
    requires SoundProcess(p)
    requires tag in p.outbounds ==> Masterly(p.outbounds[tag]) && Obeys(x, p.outbounds[tag].protocol)
    ensures Safe(p, Fates(p, if tag in p.outbounds then tag else p.default, user, x, steps))
  {
    hide DialerTag, SoundOutbound, SoundInbound, SoundRule, SoundBalancer, IsMemberOut, Handler, Fates;
    FateOf(p, tag, user, x, steps);
    if tag !in p.outbounds {
      HarmlessFate(p, "block", user, x, steps);
    } else if steps > 0 && ToLower(p.outbounds[tag].protocol) != "blackhole" {
      if p.outbounds[tag].dialer == "block" {
        HarmlessFate(p, "block", user, x, steps - 1);
      } else {
        var m :| p.outbounds[tag].dialer == DialerTag(m);
        HopSafe(p, m, user, x, steps - 1);
        DialerTagNonEmpty(m);
      }
    }
  }

  // The next hop of a connection handed to an entry.
  lemma FateOf(p: Process, tag: string, user: string, x: Behaviour, steps: nat)
    ensures var f := Fates(p, tag, user, x, steps);
            if steps == 0 || tag !in p.outbounds then f == Nowhere
            else
              var o := p.outbounds[tag];
              && (ToLower(o.protocol) == "blackhole" ==> f == Blackholed)
              && (ToLower(o.protocol) == "loopback" && o.body.Settings? ==>
                    f == Fates(p, Handler(p, o.body.text, user, x.health), user, x, steps - 1))
              && (o.dialer != "" && Obeys(x, o.protocol) && ToLower(o.protocol) != "blackhole" ==>
                    f == Fates(p, o.dialer, user, x, steps - 1))
              && (!Obeys(x, o.protocol) && ToLower(o.protocol) != "loopback" && o.body.Settings? ==> f == LeavesBy(tag))
  {
    hide Handler;
    assert "blackhole"[0] == 'b' && "loopback"[0] == 'l';
  }

  // An entry is no pool member.
  lemma EntryNoMember(name: string, o: Outbound)
    requires o.tag == EntryTag(name)
    ensures !IsMemberOut(o)
  {
    if IsMemberOut(o) {
      var j: nat, k :| o.tag == SlotMemberTag(j, k);
      MemberTagPrefix(j, k);
      TagFamilies(name, "", j, o.tag);
      assert false;
    }
  }

  // Nothing of a user's traffic handed to this tag ever leaves but by a member.
  ghost predicate AlwaysSafe(p: Process, tag: string, user: string, x: Behaviour) {
    forall steps :: Safe(p, Fates(p, tag, user, x, steps))
  }

  // ---- exactly which traffic leaves --------------------------------------------------

  // The outbound hands its connections on: a loopback to wherever the routing
  // table sends its inbound tag, any other to the dialer it obeys.
  predicate HandsOn(o: Outbound, x: Behaviour) {
    var protocol := ToLower(o.protocol);
    && protocol != "blackhole"
    && ((protocol == "loopback" && o.body.Settings?) || (o.dialer != "" && !x.ignores(protocol)))
  }

  function NextStop(p: Process, tag: string, user: string, x: Behaviour): string {
    if tag !in p.outbounds || !HandsOn(p.outbounds[tag], x) then tag
    else
      var o := p.outbounds[tag];
      if ToLower(o.protocol) == "loopback" &&
          o.body.Settings? then Handler(p, o.body.text, user, x.health) else o.dialer
  }

  // Where a connection stands after it has been handed on n times.
  function Lands(p: Process, tag: string, user: string, x: Behaviour, n: nat): string
    decreases n
  {
    if n == 0 then tag else Lands(p, NextStop(p, tag, user, x), user, x, n - 1)
  }

  // The outbound sends what it is handed straight off this box, and is no pool
  // member: it has no dialer, or ignores it.
  ghost predicate Leaves(p: Process, tag: string, x: Behaviour) {
    tag in p.outbounds &&
    var o := p.outbounds[tag];
    && o.body.Settings? && !HandsOn(o, x) && ToLower(o.protocol) != "blackhole" && !IsMemberOut(o)
  }

  // One hop of the interpreter.
  lemma HopFate(p: Process, tag: string, user: string, x: Behaviour, steps: nat)
    ensures var f := Fates(p, tag, user, x, steps);
            if steps == 0 || tag !in p.outbounds then f == Nowhere
            else if HandsOn(p.outbounds[tag], x) then f == Fates(p, NextStop(p, tag, user, x), user, x, steps - 1)
            else if ToLower(p.outbounds[tag].protocol) == "blackhole" then f == Blackholed
            else p.outbounds[tag].body.Settings? ==> f == LeavesBy(tag)
  {
    hide Handler, ToLower;
    assert "blackhole"[0] == 'b' && "loopback"[0] == 'l';
  }

  // What neither hands on nor leaves is safe: a member, a blackhole, or a hop.
  lemma StopSafe(p: Process, tag: string, user: string, x: Behaviour, steps: nat)
    requires SoundProcess(p) && !Leaves(p, tag, x)
    requires tag in p.outbounds ==> !HandsOn(p.outbounds[tag], x)
    ensures Safe(p, Fates(p, tag, user, x, steps))
  {
    SoundParts(p);
    HopFate(p, tag, user, x, steps);
    hide SoundProcess, Fates, HandsOn, Handler, DialerTag, IsMemberOut, EntryTag;
    if tag in p.outbounds && p.outbounds[tag].body.Hop? {
      var m := HopOnly(p.outbounds[tag]);
      HopSafe(p, m, user, x, steps);
    }
  }

  lemma HopOnly(o: Outbound) returns (m: string)
    requires SoundOutbound(o) && o.body.Hop?
    ensures o.tag == DialerTag(m)
  {
    hide DialerTag;
    var i: nat, n, opts :| i < SLOT_COUNT && o == DialerOutbound(i, n, opts);
    m := n;
  }

  lemma {:induction false} SafeAlong(p: Process, tag: string, user: string, x: Behaviour, steps: nat)
    requires SoundProcess(p) && forall n: nat :: !Leaves(p, Lands(p, tag, user, x, n), x)
    ensures Safe(p, Fates(p, tag, user, x, steps))
    decreases steps
  {
    hide SoundProcess, Fates, HandsOn, NextStop, Safe, Leaves;
    assert Lands(p, tag, user, x, 0) == tag;
    HopFate(p, tag, user, x, steps);
    SafeNowhere(p);
    if tag in p.outbounds && HandsOn(p.outbounds[tag], x) {
      var next := NextStop(p, tag, user, x);
      forall n: nat ensures !Leaves(p, Lands(p, next, user, x, n), x) {
        assert Lands(p, tag, user, x, n + 1) == Lands(p, next, user, x, n);
      }
      if steps > 0 { SafeAlong(p, next, user, x, steps - 1); }
    } else {
      StopSafe(p, tag, user, x, steps);
    }
  }

  lemma {:induction false} LeavesAlong(p: Process, tag: string, user: string, x: Behaviour, n: nat) returns (steps: nat)
    requires Leaves(p, Lands(p, tag, user, x, n), x)
    ensures !Safe(p, Fates(p, tag, user, x, steps))
    decreases n
  {
    hide Fates, HandsOn, NextStop, IsMemberOut;
    if n == 0 {
      steps := 1;
      HopFate(p, tag, user, x, 1);
    } else {
      var next := NextStop(p, tag, user, x);
      var rest := LeavesAlong(p, next, user, x, n - 1);
      steps := rest + 1;
      HopFate(p, tag, user, x, steps);
      if tag !in p.outbounds || !HandsOn(p.outbounds[tag], x) {
        StaysPut(p, tag, user, x);
        steps := rest;
      }
    }
  }

  lemma StaysPut(p: Process, tag: string, user: string, x: Behaviour)
    requires tag !in p.outbounds || !HandsOn(p.outbounds[tag], x)
    ensures NextStop(p, tag, user, x) == tag
  {
  }

  // No chain is longer than there are outbounds before it stops or repeats.
  ghost predicate NeverLeaves(p: Process, tag: string, user: string, x: Behaviour) {
    forall n: nat :: n < |p.outbounds| ==> !Leaves(p, Lands(p, tag, user, x, n), x)
  }

  lemma {:induction false} LandsOn(p: Process, tag: string, user: string, x: Behaviour, a: nat, b: nat)
    ensures Lands(p, tag, user, x, a + b) == Lands(p, Lands(p, tag, user, x, a), user, x, b)
    decreases a
  {
    hide NextStop;
    if a > 0 { LandsOn(p, NextStop(p, tag, user, x), user, x, a - 1, b); }
  }

  lemma {:induction false} NowhereElse(p: Process, tag: string, user: string, x: Behaviour, n: nat)
    requires tag !in p.outbounds
    ensures Lands(p, tag, user, x, n) == tag
    decreases n
  {
    if n > 0 { NowhereElse(p, tag, user, x, n - 1); }
  }

  // What leaves at all leaves within as many hops as there are outbounds: a
  // longer chain comes by some outbound twice, and the stretch between can go.
  lemma {:induction false} LeavesSoon(p: Process, tag: string, user: string, x: Behaviour, n: nat) returns (m: nat)
    requires Leaves(p, Lands(p, tag, user, x, n), x)
    ensures m < |p.outbounds| && Leaves(p, Lands(p, tag, user, x, m), x)
    decreases n
  {
    hide Leaves;
    if n < |p.outbounds| {
      m := n;
    } else {
      var i, j := Repeats(p, tag, user, x, n);
      LandsOn(p, tag, user, x, j, n - j);
      LandsOn(p, tag, user, x, i, n - j);
      m := LeavesSoon(p, tag, user, x, i + (n - j));
    }
  }

  lemma Repeats(p: Process, tag: string, user: string, x: Behaviour, n: nat) returns (i: nat, j: nat)
    requires Leaves(p, Lands(p, tag, user, x, n), x) && n >= |p.outbounds|
    ensures i < j <= n && Lands(p, tag, user, x, i) == Lands(p, tag, user, x, j)
  {
    hide Lands;
    var stops := seq(n + 1, k requires 0 <= k <= n => Lands(p, tag, user, x, k));
    forall k | 0 <= k < |stops| ensures stops[k] in p.outbounds {
      LandsOn(p, tag, user, x, k, n - k);
      if stops[k] !in p.outbounds { NowhereElse(p, stops[k], user, x, n - k); }
    }
    assert Elems(stops) <= p.outbounds.Keys;
    MustRepeat(stops, p.outbounds.Keys);
    i, j :| 0 <= i < j < |stops| && stops[i] == stops[j];
  }

  // Traffic handed to a tag is safe exactly when no outbound on its chain, of as
  // many as there are, sends it straight off this box.
  lemma SafeIff(p: Process, tag: string, user: string, x: Behaviour)
    requires SoundProcess(p)
    ensures AlwaysSafe(p, tag, user, x) <==> NeverLeaves(p, tag, user, x)
  {
    hide SoundProcess, Fates, Safe, Leaves, Lands;
    if n: nat :| Leaves(p, Lands(p, tag, user, x, n), x) {
      var steps := LeavesAlong(p, tag, user, x, n);
      var m := LeavesSoon(p, tag, user, x, n);
    } else {
      forall steps: nat ensures Safe(p, Fates(p, tag, user, x, steps)) { SafeAlong(p, tag, user, x, steps); }
    }
  }

  // A master itself leaves exactly when its protocol neither obeys its dialer nor
  // is a loopback.
  lemma MasterLeavesIff(p: Process, name: string, x: Behaviour)
    requires EntryTag(name) in p.outbounds && Masterly(p.outbounds[EntryTag(name)])
    requires p.outbounds[EntryTag(name)].tag == EntryTag(name)
    ensures var o := p.outbounds[EntryTag(name)];
            Leaves(p, EntryTag(name), x) <==> !Obeys(x, o.protocol) && ToLower(o.protocol) != "loopback"
  {
    EntryNoMember(name, p.outbounds[EntryTag(name)]);
    forall m ensures DialerTag(m) != "" { DialerTagNonEmpty(m); }
    hide EntryTag, DialerTag, IsMemberOut, ToLower;
    assert "blackhole"[0] == 'b' && "loopback"[0] == 'l';
  }

  lemma SafeNowhere(p: Process)
    ensures Safe(p, Nowhere)
  {
  }

  lemma DialerTagNonEmpty(m: string)
    ensures DialerTag(m) != ""
  {
    assert DialerTag(m)[0] == 'd';
  }

  // ---- every state on the way is sound ---------------------------------------------

  // Each object present is one of the two configs', and so is the routing.
  ghost predicate FromEither(q: Process, was: LiveConfig, want: LiveConfig) {
    && (forall t :: t in q.outbounds ==>
          (t in was.outbounds && q.outbounds[t] == was.outbounds[t]) ||
              (t in want.outbounds && q.outbounds[t] == want.outbounds[t]))
    && (forall t :: t in q.inbounds ==>
          (t in was.inbounds && q.inbounds[t] == was.inbounds[t]) ||
              (t in want.inbounds && q.inbounds[t] == want.inbounds[t]))
    && (q.routing == was.routing || q.routing == want.routing)
    && q.default == was.firstOut
  }

  lemma OnTheWay(p: Plan, was: LiveConfig, want: LiveConfig, k: nat)
    requires Tagged(want) && IsLivePlan(p, was, want) && k <= |Calls(p, was, want)|
    ensures FromEither(After(p, was, want, k), was, want)
    ensures forall t :: t in was.outbounds && t !in Elems(StagesOf(p).downs) && t !in Elems(StagesOf(p).gone) ==>
              t in After(p, was, want, k).outbounds
  {
    var st := StagesOf(p);
    hide IsLivePlan, Calls, StagesOf, After, StateAt, FromEither;
    AfterIsStateAt(p, was, want, k);
    StateFromEither(was, want, st, k);
  }

  lemma StateFromEither(was: LiveConfig, want: LiveConfig, st: Stages, k: nat)
    requires Elems(st.ups) <= want.outbounds.Keys && Elems(st.inUps) <= want.inbounds.Keys
    ensures FromEither(StateAt(was, want, st, k), was, want)
    ensures forall t :: t in was.outbounds && t !in Elems(st.downs) && t !in Elems(st.gone) ==>
              t in StateAt(was, want, st, k).outbounds
  {
    hide First, CallsBefore, Swapped;
    FirstPart(st, k);
    FirstParts(st, k);
    var down, up, gone := First(st.downs, k), First(st.ups, k - CallsBefore(st, 2)),
        First(st.gone, k - CallsBefore(st, 7));
    SwappedFrom(was.outbounds, want.outbounds, down, up, gone);
    SwappedFrom(was.inbounds, want.inbounds, First(st.inDowns, k - CallsBefore(st, 3)),
                First(st.inUps, k - CallsBefore(st, 4)),
                First(st.inGone, k - CallsBefore(st, 6)));
    forall t | t in was.outbounds && t !in Elems(st.downs) && t !in Elems(st.gone)
      ensures t in StateAt(was, want, st, k).outbounds
    {
      SwappedHas(was.outbounds, want.outbounds, down, up, gone, t);
    }
  }

  lemma OnTheWaySound(p: Plan, was: LiveConfig, want: LiveConfig, oldCfg: Config, newCfg: Config, k: nat)
    requires IsLivePlan(p, was, want) && k <= |Calls(p, was, want)|
    requires Sound(oldCfg) && Sound(newCfg) && Decomposes(oldCfg, was) && Decomposes(newCfg, want)
    ensures SoundProcess(After(p, was, want, k)) && FromEither(After(p, was, want, k), was, want)
  {
    BlockUntouched(p, was, want, oldCfg, newCfg);
    OnTheWay(p, was, want, k);
    hide IsLivePlan, Calls, StagesOf, After, SoundOutbound, SoundInbound, SoundRule, SoundBalancer;
    MixSound(After(p, was, want, k), was, want, oldCfg, newCfg);
  }

  lemma MixSound(q: Process, was: LiveConfig, want: LiveConfig, oldCfg: Config, newCfg: Config)
    requires Sound(oldCfg) && Sound(newCfg) && Decomposes(oldCfg, was) && Decomposes(newCfg, want)
    requires FromEither(q, was, want) && was.firstOut == "block" && "block" in q.outbounds
    requires "block" in was.outbounds && was.outbounds["block"] == BLOCK
    requires "block" in want.outbounds && want.outbounds["block"] == BLOCK
    ensures SoundProcess(q)
  {
    hide SoundOutbound, SoundInbound, SoundRule, SoundBalancer;
  }

  lemma FirstParts(st: Stages, k: nat)
    ensures First(st.downs, k) <= Elems(st.downs) && First(st.gone, k - CallsBefore(st, 7)) <= Elems(st.gone)
  {
  }

  lemma SwappedFrom<T(!new)>(was: map<string, T>, want: map<string, T>, down: set<string>, up: set<string>,
                      gone: set<string>)
    requires up <= want.Keys
    ensures var m := Swapped(was, want, down, up, gone);
            forall t :: t in m ==> (t in was && m[t] == was[t]) || (t in want && m[t] == want[t])
  {
  }

  lemma BlockUntouched(p: Plan, was: LiveConfig, want: LiveConfig, oldCfg: Config, newCfg: Config)
    requires IsLivePlan(p, was, want)
    requires Sound(oldCfg) && Sound(newCfg) && Decomposes(oldCfg, was) && Decomposes(newCfg, want)
    ensures Tagged(was) && Tagged(want) && was.firstOut == "block"
    ensures "block" in was.outbounds && was.outbounds["block"] == BLOCK
    ensures "block" in want.outbounds && want.outbounds["block"] == BLOCK
    ensures "block" !in Elems(StagesOf(p).downs) && "block" !in Elems(StagesOf(p).gone)
  {
    assert oldCfg.outbounds[0] in oldCfg.outbounds && newCfg.outbounds[0] in newCfg.outbounds;
    StagesStaged(p, was, want);
    BlockNotAdded(p, was, want);
  }

  lemma BlockNotAdded(p: Plan, was: LiveConfig, want: LiveConfig)
    requires IsLivePlan(p, was, want)
    requires "block" in was.outbounds && was.outbounds["block"] == BLOCK
    requires "block" in want.outbounds && want.outbounds["block"] == BLOCK
    ensures "block" !in Elems(StagesOf(p).ups)
  {
    assert "block" !in Elems(p.addOut);
    PlanAdds(p, was, want);
  }

  lemma PlanAdds(p: Plan, was: LiveConfig, want: LiveConfig)
    requires IsLivePlan(p, was, want)
    ensures Elems(StagesOf(p).ups) == Elems(p.addOut)
  {
    SortedDistinct(p.addOut);
    OrderKeeps(p.dialerOf, p.addOut);
    ReversedKeeps(DependentsFirst(p.dialerOf, p.addOut));
  }

  // ---- the main result -------------------------------------------------------------

  datatype Inputs = Inputs(entries: seq<Entry>, inbounds: seq<UserInbound>, slots: seq<Slot>, opts: Options)

  function Compilation(i: Inputs): Result<Config, string> {
    Compiled(i.entries, i.inbounds, i.slots, i.opts)
  }

  // Every enabled entry behind this tag is a master.
  predicate OnlyMasters(i: Inputs, tag: string) {
    forall e :: e in i.entries && e.enabled && EntryTag(e.name) == tag ==> IsMaster(e)
  }

  lemma {:induction false} EntryFrom(ents: seq<Entry>, slotted: set<string>, o: Outbound) returns (e: Entry)
    requires EntryOutbounds(ents, slotted).Ok? && o in EntryOutbounds(ents, slotted).value
    ensures e in ents && e.enabled && EntryOutbound(e, slotted) == Ok(o)
  {
    var last := ents[|ents| - 1];
    var before := EntryOutbounds(ents[..|ents| - 1], slotted).value;
    if o in before {
      e := EntryFrom(ents[..|ents| - 1], slotted, o);
    } else {
      e := last;
    }
  }

  // Every enabled entry behind this tag has a protocol that obeys its dialer, or
  // is refused as a master.
  predicate Obedient(i: Inputs, tag: string, x: Behaviour) {
    forall e :: e in i.entries && e.enabled && EntryTag(e.name) == tag && MasterAllowed(e.outbound) ==>
                  Obeys(x, e.outbound.protocol)
  }

  lemma EntryMasterly(e: Entry, slotted: set<string>, x: Behaviour)
    requires IsMaster(e) && EntryOutbound(e, slotted).Ok?
    ensures Masterly(EntryOutbound(e, slotted).value)
    ensures Obeys(x, EntryOutbound(e, slotted).value.protocol) <==>
              MasterAllowed(e.outbound) ==> Obeys(x, e.outbound.protocol)
  {
    hide EntryTag, DialerTag, ToLower;
    BlackholeBlocks();
    if MasterAllowed(e.outbound) { assert EntryOutbound(e, slotted).value.protocol == e.outbound.protocol; }
  }

  // In a compiled config, a tag only masters stand behind names a master, and
  // what obeys its dialer there obeys it as an entry.
  lemma MasterTagged(i: Inputs, name: string, o: Outbound, x: Behaviour)
    requires Fed(i.inbounds, i.slots) && Compilation(i).Ok? && OnlyMasters(i, EntryTag(name))
    requires o in Compilation(i).value.outbounds && o.tag == EntryTag(name)
    ensures Masterly(o) && (Obedient(i, EntryTag(name), x) ==> Obeys(x, o.protocol))
  {
    var ents, ins, sl := SortBy(ByEntryName(), i.entries), SortBy(ByInboundName(), i.inbounds),
        SortBy(ByIndex(), i.slots);
    hide EntryOutbounds, IfaceOutbounds, FrontOf, PoolsOf, Masterly, SlotNames, EntryTag, MasterAllowed, Obeys;
    SortedSame(i.entries, i.inbounds, i.slots);
    var obs := EntryOutbounds(ents, SlotNames(sl)).value;
    if o !in obs { ElsewhereTagged(i, name, o); }
    var e := EntryFrom(ents, SlotNames(sl), o);
    EntryTagged(e, SlotNames(sl));
    EntryMasterly(e, SlotNames(sl), x);
  }

  lemma EntryTagged(e: Entry, slotted: set<string>)
    requires EntryOutbound(e, slotted).Ok?
    ensures EntryOutbound(e, slotted).value.tag == EntryTag(e.name)
  {
  }

  lemma ElsewhereTagged(i: Inputs, name: string, o: Outbound)
    requires Fed(i.inbounds, i.slots) && Compilation(i).Ok? && o in Compilation(i).value.outbounds
    requires o !in EntryOutbounds(SortBy(ByEntryName(), i.entries), SlotNames(SortBy(ByIndex(), i.slots))).value
    ensures o.tag != EntryTag(name)
  {
    var ents, ins, sl := SortBy(ByEntryName(), i.entries), SortBy(ByInboundName(), i.inbounds),
        SortBy(ByIndex(), i.slots);
    hide EntryOutbounds, IfaceOutbounds, FrontOf, PoolsOf, SlotNames, EntryTag, SlotMemberTag, DialerTag;
    SortedFed(i.inbounds, i.slots);
    IfaceFamily(ins, HaveOut(ents));
    PoolsFamily(sl, i.opts);
    if o == BLOCK || o == DIRECT {
      TagFamilies(name, "", 0, "");
    } else if IsIfaceOut(o) {
      var n :| o == IfaceOutbound(n);
      TagFamilies(name, n, 0, "");
    } else if IsDialerOut(o) {
      var j: nat, m, opts :| j < SLOT_COUNT && o == DialerOutbound(j, m, opts);
      TagFamilies(name, m, 0, "");
    } else {
      var j: nat, k :| o.tag == SlotMemberTag(j, k);
      MemberTagPrefix(j, k);
      TagFamilies(name, "", j, o.tag);
    }
  }

  // What a rule to a master's tag hands a connection to, at any point of a live
  // apply between two compiled configs.
  lemma MasterMidway(
      before: Inputs, after: Inputs, was: LiveConfig, want: LiveConfig, p: Plan, k: nat, name: string, x: Behaviour)
    requires Fed(before.inbounds, before.slots) && Compilation(before).Ok? && Decomposes(Compilation(before).value, was)
    requires Fed(after.inbounds, after.slots) && Compilation(after).Ok? && Decomposes(Compilation(after).value, want)
    requires IsLivePlan(p, was, want) && k <= |Calls(p, was, want)|
    requires OnlyMasters(before, EntryTag(name)) && OnlyMasters(after, EntryTag(name))
    ensures SoundProcess(After(p, was, want, k))
    ensures var q, tag := After(p, was, want, k), EntryTag(name);
            tag in q.outbounds ==>
              && Masterly(q.outbounds[tag])
              && (Obedient(before, tag, x) && Obedient(after, tag, x) ==> Obeys(x, q.outbounds[tag].protocol))
  {
    hide IsLivePlan, Calls, After, EntryTag, Compiled, Sound, SoundProcess, OnlyMasters, Masterly, Obedient, Obeys;
    CompiledSound(before.entries, before.inbounds, before.slots, before.opts);
    CompiledSound(after.entries, after.inbounds, after.slots, after.opts);
    OnTheWaySound(p, was, want, Compilation(before).value, Compilation(after).value, k);
    var q, tag := After(p, was, want, k), EntryTag(name);
    if tag in q.outbounds {
      if tag in was.outbounds && q.outbounds[tag] == was.outbounds[tag] {
        MasterTagged(before, name, was.outbounds[tag], x);
      } else {
        MasterTagged(after, name, want.outbounds[tag], x);
      }
    }
  }

  // At every point of a live apply between two compiled configs: a connection
  // whose rule in force names a master's outbound (a master in whichever of the
  // two configs has it) is dropped, or leaves through a pool member's tunnel, as
  // long as the master's protocol obeys its dialer.
  lemma NoLeakWhileReconfiguring(
      before: Inputs, after: Inputs, was: LiveConfig, want: LiveConfig, p: Plan, k: nat,
      inTag: string, user: string, name: string, x: Behaviour, steps: nat)
    requires Fed(before.inbounds, before.slots) && Compilation(before).Ok? && Decomposes(Compilation(before).value, was)
    requires Fed(after.inbounds, after.slots) && Compilation(after).Ok? && Decomposes(Compilation(after).value, want)
    requires IsLivePlan(p, was, want) && k <= |Calls(p, was, want)|
    requires OnlyMasters(before, EntryTag(name)) && OnlyMasters(after, EntryTag(name))
    requires Obedient(before, EntryTag(name), x) && Obedient(after, EntryTag(name), x)
    requires RuleFor(After(p, was, want, k).routing.rules, inTag, user) == Some(ToOutbound(inTag, EntryTag(name)))
    ensures var q := After(p, was, want, k);
            Safe(q, Fates(q, Handler(q, inTag, user, x.health), user, x, steps))
  {
    hide IsLivePlan, Calls, After, EntryTag, Compiled, SoundProcess, Fates, Safe, OnlyMasters, Masterly, Obedient,
         Obeys;
    MasterMidway(before, after, was, want, p, k, name, x);
    ObedientSafe(After(p, was, want, k), EntryTag(name), user, x, steps);
  }

  // Without that proviso, and for every connection: at every point it is safe
  // exactly when no outbound on the chain it is handed along leaves this box.
  lemma LeaksExactlyWhen(
      before: Inputs, after: Inputs, was: LiveConfig, want: LiveConfig, p: Plan, k: nat,
      inTag: string, user: string, x: Behaviour)
    requires Fed(before.inbounds, before.slots) && Compilation(before).Ok? && Decomposes(Compilation(before).value, was)
    requires Fed(after.inbounds, after.slots) && Compilation(after).Ok? && Decomposes(Compilation(after).value, want)
    requires IsLivePlan(p, was, want) && k <= |Calls(p, was, want)|
    ensures var q := After(p, was, want, k);
            var tag := Handler(q, inTag, user, x.health);
            AlwaysSafe(q, tag, user, x) <==> NeverLeaves(q, tag, user, x)
  {
    hide IsLivePlan, Calls, After, Compiled, Sound, SoundProcess, Handler, AlwaysSafe, NeverLeaves;
    CompiledSound(before.entries, before.inbounds, before.slots, before.opts);
    CompiledSound(after.entries, after.inbounds, after.slots, after.opts);
    OnTheWaySound(p, was, want, Compilation(before).value, Compilation(after).value, k);
    var q := After(p, was, want, k);
    SafeIff(q, Handler(q, inTag, user, x.health), user, x);
  }

  // What refusing hysteria buys: where only hysteria ignores its dialer, every
  // master that is let through obeys its own but a loopback.
  lemma AllowedObeys(x: Behaviour, o: Stored)
    requires forall p :: x.ignores(p) ==> p == "hysteria"
    requires MasterAllowed(o)
    ensures Obeys(x, o.protocol) <==> ToLower(o.protocol) != "loopback"
  {
    if ToLower(o.protocol) == "loopback" { assert ToLower(o.protocol)[0] == 'l'; }
  }

  // ---- a master never exists without its dialer ------------------------------------

  // What the resolver guarantees of the slots it builds, and of stored entries.
  predicate Resolved(i: Inputs) {
    && Fed(i.inbounds, i.slots)
    && (forall s, m :: s in i.slots && m in SlotMasters(s) ==> exists e :: e in i.entries && e.enabled && e.name == m)
    && (forall e :: e in i.entries && e.outbound.Stored? ==> e.outbound.dialerProxy == "")
  }

  // Only entries dial through something: block, or the dialer of a slot's master.
  lemma WhoDials(i: Inputs, o: Outbound) returns (name: string)
    requires Resolved(i) && Compilation(i).Ok? && o in Compilation(i).value.outbounds && o.dialer != ""
    ensures o.tag == EntryTag(name)
    ensures o.dialer == "block" || (o.dialer == DialerTag(name) && name in SlotNames(i.slots))
  {
    var ents, ins, sl := SortBy(ByEntryName(), i.entries), SortBy(ByInboundName(), i.inbounds),
        SortBy(ByIndex(), i.slots);
    hide EntryOutbounds, IfaceOutbounds, FrontOf, PoolsOf, SlotNames, EntryTag, DialerTag, SlotMemberTag;
    SortedSame(i.entries, i.inbounds, i.slots);
    SortedFed(i.inbounds, i.slots);
    IfaceFamily(ins, HaveOut(ents));
    PoolsFamily(sl, i.opts);
    if o !in EntryOutbounds(ents, SlotNames(sl)).value { DialsNothing(o); }
    var e := EntryFrom(ents, SlotNames(sl), o);
    name := e.name;
    assert e in i.entries;
  }

  lemma DialsNothing(o: Outbound)
    requires o == BLOCK || o == DIRECT || IsIfaceOut(o) || IsDialerOut(o) || IsMemberOut(o)
    ensures o.dialer == ""
  {
  }

  lemma DialerIsIn(i: Inputs, name: string)
    requires Compilation(i).Ok? && name in SlotNames(i.slots)
    ensures exists o :: o in Compilation(i).value.outbounds && o.tag == DialerTag(name)
  {
    hide EntryOutbounds, IfaceOutbounds, FrontOf, PoolsOf, DialerTag;
    SortedSame(i.entries, i.inbounds, i.slots);
    PoolsFrom(SortBy(ByIndex(), i.slots), i.opts);
    SlotNamed(i.slots, name);
    var s :| s in i.slots && name in SlotMasters(s);
    var j :| 0 <= j < |SlotMasters(s)| && SlotMasters(s)[j] == name;
    var o := DialerOutbounds(s, i.opts)[j];
    assert o in DialerOutbounds(s, i.opts);
    assert o in PoolsOf(SortBy(ByIndex(), i.slots), i.opts).outbounds;
    assert o in Compilation(i).value.outbounds;
  }

  lemma CompiledAttached(i: Inputs, lc: LiveConfig)
    requires Resolved(i) && Compilation(i).Ok? && Decomposes(Compilation(i).value, lc)
    ensures Attached(lc.outbounds)
  {
    hide Compiled, DialerTag, EntryTag, Resolved, SlotNames;
    assert Fed(i.inbounds, i.slots) by { ResolvedFed(i); }
    CompiledSound(i.entries, i.inbounds, i.slots, i.opts);
    forall t | t in lc.outbounds ensures lc.outbounds[t].dialer == "" || lc.outbounds[t].dialer in lc.outbounds {
      var o := lc.outbounds[t];
      if o.dialer != "" {
        var name := WhoDials(i, o);
        if o.dialer == "block" {
          assert Compilation(i).value.outbounds[0] in Compilation(i).value.outbounds;
        } else {
          DialerIsIn(i, name);
        }
      }
    }
  }

  lemma ResolvedFed(i: Inputs)
    requires Resolved(i)
    ensures Fed(i.inbounds, i.slots)
  {
  }

  // What anything dials through in one compiled config dials nothing in any other.
  lemma TargetsArePlain(i: Inputs, o: Outbound, j: Inputs, lc: LiveConfig)
    requires Resolved(i) && Compilation(i).Ok? && o in Compilation(i).value.outbounds && o.dialer != ""
    requires Resolved(j) && Compilation(j).Ok? && Decomposes(Compilation(j).value, lc)
    ensures Plain(lc.outbounds, o.dialer)
  {
    hide Compiled, DialerTag, EntryTag, SlotNames;
    var name := WhoDials(i, o);
    CompiledSound(j.entries, j.inbounds, j.slots, j.opts);
    if o.dialer in lc.outbounds {
      if o.dialer == "block" {
        assert Compilation(j).value.outbounds[0] in Compilation(j).value.outbounds;
      } else {
        DialerOnly(lc.outbounds[o.dialer], name);
      }
    }
  }

  // The master a dialer outbound of a compiled config belongs to.
  lemma DialerOwner(i: Inputs, o: Outbound, name: string) returns (m: string)
    requires Resolved(i) && Compilation(i).Ok? && o in Compilation(i).value.outbounds && o.tag == DialerTag(name)
    ensures m in SlotNames(i.slots) && DialerTag(m) == DialerTag(name)
  {
    var sl := SortBy(ByIndex(), i.slots);
    hide Compiled, DialerTag, SlotNames;
    PoolObject(i, o, name);
    SortedSame(i.entries, i.inbounds, i.slots);
    m := PoolOwner(sl, i.opts, o, name);
  }

  lemma PoolOwner(sl: seq<Slot>, opts: Options, o: Outbound, name: string) returns (m: string)
    requires o in PoolsOf(sl, opts).outbounds && o.tag == DialerTag(name)
    ensures m in SlotNames(sl) && DialerTag(m) == DialerTag(name)
  {
    hide PoolsOf, DialerTag, SlotMemberTag;
    PoolsFrom(sl, opts);
    var s :| s in sl && (o in DialerOutbounds(s, opts) || o in MemberOutbounds(s.index, s.members));
    if o in DialerOutbounds(s, opts) {
      var k :| 0 <= k < |SlotMasters(s)| && o == DialerOutbounds(s, opts)[k];
      m := SlotMasters(s)[k];
      assert m in SlotMasters(s);
    } else {
      MemberTagged(s, o);
      TagFamilies(name, "", s.index, o.tag);
      assert false;
    }
  }

  lemma PoolObject(i: Inputs, o: Outbound, name: string)
    requires Compilation(i).Ok? && o in Compilation(i).value.outbounds && o.tag == DialerTag(name)
    ensures o in PoolsOf(SortBy(ByIndex(), i.slots), i.opts).outbounds
  {
    var ents, ins, sl := SortBy(ByEntryName(), i.entries), SortBy(ByInboundName(), i.inbounds),
        SortBy(ByIndex(), i.slots);
    hide EntryOutbounds, IfaceOutbounds, FrontOf, PoolsOf, DialerTag, EntryTag, IsEntryOut, IsIfaceOut, SlotNames;
    EntryFamily(ents, SlotNames(sl));
    IfaceFamily(ins, HaveOut(ents));
    if o !in PoolsOf(sl, i.opts).outbounds { NotADialer(o, name); }
  }

  lemma NotADialer(o: Outbound, name: string)
    requires o == BLOCK || o == DIRECT || IsEntryOut(o) || IsIfaceOut(o)
    ensures o.tag != DialerTag(name)
  {
    TagFamilies(name, "", 0, "");
    if IsEntryOut(o) {
      var n :| o.tag == EntryTag(n);
      TagFamilies(n, name, 0, "");
    } else if IsIfaceOut(o) {
      var n :| o == IfaceOutbound(n);
      TagFamilies(name, n, 0, "");
    }
  }

  lemma NoneOrphaned(before: Inputs, after: Inputs, was: LiveConfig, want: LiveConfig, t: string)
    requires Resolved(before) && Compilation(before).Ok? && Decomposes(Compilation(before).value, was)
    requires Resolved(after) && Compilation(after).Ok? && Decomposes(Compilation(after).value, want)
    ensures !Orphaned(was.outbounds, want.outbounds, t)
  {
    hide Compiled, DialerTag, SlotNames;
    CompiledSound(before.entries, before.inbounds, before.slots, before.opts);
    CompiledSound(after.entries, after.inbounds, after.slots, after.opts);
    assert Compilation(before).value.outbounds[0] in Compilation(before).value.outbounds;
    assert Compilation(after).value.outbounds[0] in Compilation(after).value.outbounds;
    if Orphaned(was.outbounds, want.outbounds, t) {
      var name := WhoDials(before, was.outbounds[t]);
      var d := was.outbounds[t].dialer;
      if d == "block" { assert false; }
      var m := DialerOwner(after, want.outbounds[d], name);
      SameDialerSameEntry(m, name);
      MasterIsIn(after, m);
      assert false;
    }
  }

  lemma SameDialerSameEntry(m: string, n: string)
    requires DialerTag(m) == DialerTag(n)
    ensures EntryTag(m) == EntryTag(n)
  {
    assert DialerTag(m)[7..] == SanitizeKey(m) && DialerTag(n)[7..] == SanitizeKey(n);
  }

  lemma MasterIsIn(i: Inputs, m: string)
    requires Resolved(i) && Compilation(i).Ok? && m in SlotNames(i.slots)
    ensures exists o :: o in Compilation(i).value.outbounds && o.tag == EntryTag(m)
  {
    hide EntryOutbounds, IfaceOutbounds, FrontOf, PoolsOf, EntryTag;
    var ents, sl := SortBy(ByEntryName(), i.entries), SortBy(ByIndex(), i.slots);
    SortedSame(i.entries, i.inbounds, i.slots);
    EntryFamily(ents, SlotNames(sl));
    SlotNamed(i.slots, m);
    var s :| s in i.slots && m in SlotMasters(s);
    var e :| e in i.entries && e.enabled && e.name == m;
    var o := EntryOutbound(e, SlotNames(sl)).value;
    EntryTagged(e, SlotNames(sl));
    assert o in EntryOutbounds(ents, SlotNames(sl)).value;
    assert o in Compilation(i).value.outbounds;
  }

  // Between any two configs compiled from resolved pools, no state of the live
  // apply holds an outbound whose dialer is missing: nothing is ever orphaned.
  lemma MasterNeverWithoutDialer(before: Inputs, after: Inputs, was: LiveConfig, want: LiveConfig, p: Plan, k: nat)
    requires Resolved(before) && Compilation(before).Ok? && Decomposes(Compilation(before).value, was)
    requires Resolved(after) && Compilation(after).Ok? && Decomposes(Compilation(after).value, want)
    requires IsLivePlan(p, was, want) && k <= |Calls(p, was, want)|
    ensures Attached(After(p, was, want, k).outbounds)
  {
    hide IsLivePlan, Calls, After, Compiled, Resolved, Orphaned, Attached;
    CompiledAttached(before, was);
    CompiledAttached(after, want);
    forall t ensures !Orphaned(was.outbounds, want.outbounds, t) { NoneOrphaned(before, after, was, want, t); }
    forall t | t in was.outbounds && was.outbounds[t].dialer != ""
      ensures Plain(was.outbounds, was.outbounds[t].dialer) && Plain(want.outbounds, was.outbounds[t].dialer)
    {
      TargetsArePlain(before, was.outbounds[t], before, was);
      TargetsArePlain(before, was.outbounds[t], after, want);
    }
    forall t | t in want.outbounds && want.outbounds[t].dialer != ""
      ensures Plain(was.outbounds, want.outbounds[t].dialer) && Plain(want.outbounds, want.outbounds[t].dialer)
    {
      TargetsArePlain(after, want.outbounds[t], before, was);
      TargetsArePlain(after, want.outbounds[t], after, want);
    }
    AfterAttached(p, was, want, k);
  }
}
