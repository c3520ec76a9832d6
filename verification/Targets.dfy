// Where an inbound's traffic leaves, read from the text of its target
// (core/xray/config.go: Generate, outboundTagFor; core/xray/models.go: ParseTarget).
module Targets {
  import opened Wrappers
  import opened Text
  import opened Sorting
  import opened Tags
  import opened Names
  import opened XrayConfig
  import opened Generate
  import opened FailClosed
  import opened RoutingTable

  // ---- the forms a target can take ---------------------------------------------

  predicate SaysDirect(t: string) {
    TrimSpace(t) == "" || TrimSpace(t) == "direct"
  }

  // The target names an entry, as a proxy or as a master.
  predicate SaysEntry(t: string, name: string) {
    name != "" && (TrimSpace(t) == "xray:" + name || TrimSpace(t) == "master:" + name)
  }

  predicate SaysIface(t: string, name: string) {
    IfaceName(name) && TrimSpace(t) == "iface:" + name
  }

  // A text with a colon is cut into exactly the parts it is spelled from.
  lemma Spelled(s: string, kind: string, name: string)
    requires ':' !in kind
    ensures s == kind + ":" + name <==> Cut(s, ':') == Some((kind, name))
  {
    CutAt(kind, ':', name);
    CutParts(s, ':');
  }

  // The three forms, and no text is of two of them or says two names.
  lemma FormsAre(t: string)
    ensures SaysDirect(t) <==> ParseTarget(t) == Ok(ToDirect)
    ensures forall n :: SaysEntry(t, n) <==> ParseTarget(t) == Ok(ToXray(n)) || ParseTarget(t) == Ok(ToMaster(n))
    ensures forall x :: SaysIface(t, x) <==> ParseTarget(t) == Ok(ToIface(x))
  {
    var s := TrimSpace(t);
    DirectWhole();
    hide TrimSpace;
    forall n ensures SaysEntry(t, n) <==> ParseTarget(t) == Ok(ToXray(n)) || ParseTarget(t) == Ok(ToMaster(n)) {
      Spelled(s, "xray", n);
      Spelled(s, "master", n);
      assert "xray" + ":" == "xray:" && "master" + ":" == "master:";
      hide Cut;
    }
    forall x ensures SaysIface(t, x) <==> ParseTarget(t) == Ok(ToIface(x)) {
      Spelled(s, "iface", x);
      assert "iface" + ":" == "iface:";
      hide Cut;
    }
  }

  lemma DirectWhole()
    ensures Cut("direct", ':') == None && Cut("", ':') == None
  {
    CutParts("direct", ':');
  }

  // ---- the rule in force for an inbound -----------------------------------------

  // No two listening inbounds share a tag.
  predicate OneTagEach(inbounds: seq<UserInbound>) {
    forall u, v :: u in inbounds && v in inbounds && Listening(u) && Listening(v) && u != v ==>
                     InboundTag(u.name) != InboundTag(v.name)
  }

  lemma {:induction false} FrontRules(ins: seq<UserInbound>, have: set<string>)
    requires FrontOf(ins, have).Ok?
    ensures forall u :: u in ins && Listening(u) ==> Emitted(u, have) && RuleOf(u) in FrontOf(ins, have).value.rules
    ensures forall r :: r in FrontOf(ins, have).value.rules ==>
              exists u :: u in ins && Listening(u) && ParseTarget(u.target).Ok? && r == RuleOf(u)
  {
    hide ParseTarget, OutboundTagFor, InboundTag, BuildInbound, Listening, RuleOf;
    if ins != [] {
      var init, u := ins[..|ins| - 1], ins[|ins| - 1];
      assert ins == init + [u];
      FrontRules(init, have);
      var rules := FrontOf(init, have).value.rules;
      if Listening(u) {
        RuleOfIs(u);
        assert FrontOf(ins, have).value.rules == rules + [RuleOf(u)];
      } else {
        assert FrontOf(ins, have) == FrontOf(init, have);
      }
      hide FrontOf;
      var all := if Listening(u) then rules + [RuleOf(u)] else rules;
      forall r | r in all
        ensures exists v :: v in ins && Listening(v) && ParseTarget(v.target).Ok? && r == RuleOf(v)
      {
        if r in rules {
          var v :| v in init && Listening(v) && ParseTarget(v.target).Ok? && r == RuleOf(v);
          assert v in ins;
        } else {
          assert u in ins;
        }
      }
    }
  }

  lemma RuleOfIs(u: UserInbound)
    requires ParseTarget(u.target).Ok?
    ensures RuleOf(u) == ToOutbound(InboundTag(u.name), OutboundTagFor(ParseTarget(u.target).value))
  {
  }

  // Whoever the user, an inbound's own rule is in force for it.
  lemma OwnRule(entries: seq<Entry>, inbounds: seq<UserInbound>, slots: seq<Slot>, opts: Options, u: UserInbound,
                user: string)
    requires Compiled(entries, inbounds, slots, opts).Ok? && OneTagEach(inbounds) && u in inbounds && Listening(u)
    ensures ParseTarget(u.target).Ok?
    ensures RuleFor(Compiled(entries, inbounds, slots, opts).value.routing.rules, InboundTag(u.name), user) ==
            Some(RuleOf(u))
  {
    hide EntryOutbounds, IfaceOutbounds, SlotNames, HaveOut, FrontOf, PoolsOf, Listening, InboundTag, SlotRules;
    var ents, ins, sl := SortBy(ByEntryName(), entries), SortBy(ByInboundName(), inbounds), SortBy(ByIndex(), slots);
    var have := HaveOut(ents) + OutTags(IfaceOutbounds(ins, HaveOut(ents)));
    SortedSame(entries, inbounds, slots);
    FrontRules(ins, have);
    RuleOfIs(u);
    var front, own := FrontOf(ins, have).value.rules, PoolsOf(sl, opts).rules;
    var rules := Compiled(entries, inbounds, slots, opts).value.routing.rules;
    assert rules == [ToOutbound(API_TAG, API_TAG)] + front + own;
    PoolRulesElsewhere(sl, opts, u.name, user);
    FrontRuleOwn(ins, have, inbounds, u, user);
    hide Compiled, RuleOf, Emitted;
    assert RuleOf(u) in rules && Matches(RuleOf(u), InboundTag(u.name), user);
    forall r | r in rules && Matches(r, InboundTag(u.name), user) ensures r == RuleOf(u) {
      if r == ToOutbound(API_TAG, API_TAG) {
        TagFamilies(u.name, "", 0, "");
        assert false;
      }
    }
  }

  lemma FrontRuleOwn(ins: seq<UserInbound>, have: set<string>, inbounds: seq<UserInbound>, u: UserInbound, user: string)
    requires FrontOf(ins, have).Ok? && OneTagEach(inbounds) && u in inbounds && Listening(u)
    requires forall v :: v in ins ==> v in inbounds
    requires ParseTarget(u.target).Ok?
    ensures forall r :: r in FrontOf(ins, have).value.rules && Matches(r, InboundTag(u.name), user) ==> r == RuleOf(u)
  {
    hide FrontOf, Listening, InboundTag, RuleOf, Emitted, ParseTarget;
    FrontRules(ins, have);
    forall r | r in FrontOf(ins, have).value.rules && Matches(r, InboundTag(u.name), user) ensures r == RuleOf(u) {
      var v :| v in ins && Listening(v) && ParseTarget(v.target).Ok? && r == RuleOf(v);
      RuleOfIs(v);
    }
  }

  lemma {:induction false} PoolRulesElsewhere(slots: seq<Slot>, opts: Options, name: string, user: string)
    ensures forall r :: r in PoolsOf(slots, opts).rules ==> !Matches(r, InboundTag(name), user)
  {
    hide InboundTag, SlotInTag, DialerOutbounds, MemberOutbounds, SlotInbound, SlotBalancers;
    if slots != [] {
      PoolRulesElsewhere(slots[..|slots| - 1], opts, name, user);
      TagFamilies(name, "", slots[|slots| - 1].index, "");
    }
  }

  // ---- what the rule hands over to ------------------------------------------------

  // An enabled entry known by this tag.
  predicate EntryThere(entries: seq<Entry>, tag: string) {
    exists e :: e in entries && e.enabled && EntryTag(e.name) == tag
  }

  predicate HasTag(obs: seq<Outbound>, tag: string) {
    exists o :: o in obs && o.tag == tag
  }

  // In a compiled config the rule in force for a listening inbound does what its
  // target says: direct leaves by the box's own freedom outbound, and nothing else
  // does; an entry's name hands over to that entry, which is there and enabled; an
  // interface's to the freedom outbound under its tag.
  lemma TargetReached(entries: seq<Entry>, inbounds: seq<UserInbound>, slots: seq<Slot>, opts: Options, u: UserInbound,
                      user: string)
    requires Compiled(entries, inbounds, slots, opts).Ok? && OneTagEach(inbounds) && u in inbounds && Listening(u)
    ensures var cfg := Compiled(entries, inbounds, slots, opts).value;
            var r := RuleFor(cfg.routing.rules, InboundTag(u.name), user);
            && r.Some? && r.value.ToOutbound? && HasTag(cfg.outbounds, r.value.outTag)
            && (r.value.outTag == "direct" <==> SaysDirect(u.target))
            && (forall n :: SaysEntry(u.target, n) ==>
                  r.value.outTag == EntryTag(n) && EntryThere(entries, EntryTag(n)))
            && (forall x :: SaysIface(u.target, x) ==> r.value.outTag == IfaceTag(x))
            && (SaysDirect(u.target) || (exists n :: SaysEntry(u.target, n)) || exists x :: SaysIface(u.target, x))
  {
    OwnRule(entries, inbounds, slots, opts, u, user);
    FormsAre(u.target);
    RuleOfIs(u);
    TargetThere(entries, inbounds, slots, opts, u);
    var t := ParseTarget(u.target).value;
    var name := if t.ToDirect? then "" else t.name;
    TagFamilies(name, name, 0, "");
    hide ParseTarget, Compiled, SaysDirect, SaysEntry, SaysIface, EntryTag, IfaceTag, RuleFor, RuleOf, Listening,
         OneTagEach, InboundTag, HasTag, EntryThere;
  }

  lemma TargetThere(entries: seq<Entry>, inbounds: seq<UserInbound>, slots: seq<Slot>, opts: Options, u: UserInbound)
    requires Compiled(entries, inbounds, slots, opts).Ok? && u in inbounds && Listening(u) && ParseTarget(u.target).Ok?
    ensures var t := ParseTarget(u.target).value;
            && HasTag(Compiled(entries, inbounds, slots, opts).value.outbounds, OutboundTagFor(t))
            && (t.ToXray? || t.ToMaster? ==> EntryThere(entries, EntryTag(t.name)))
  {
    hide EntryOutbounds, IfaceOutbounds, SlotNames, FrontOf, PoolsOf, Listening, ParseTarget, BuildInbound, EntryTag,
         IfaceTag;
    var ents, ins, sl := SortBy(ByEntryName(), entries), SortBy(ByInboundName(), inbounds), SortBy(ByIndex(), slots);
    var obs, ifaces := EntryOutbounds(ents, SlotNames(sl)).value, IfaceOutbounds(ins, HaveOut(ents));
    SortedSame(entries, inbounds, slots);
    FrontRules(ins, HaveOut(ents) + OutTags(ifaces));
    EntryFamily(ents, SlotNames(sl));
    IfaceFamily(ins, HaveOut(ents));
    var t := ParseTarget(u.target).value;
    HaveInConfig(OutboundTagFor(t), obs, ifaces, PoolsOf(sl, opts).outbounds, ents);
    if t.ToXray? || t.ToMaster? { EntryNamed(ents, ifaces, t.name); }
  }

  // A tag of the entry family that the compiler has is that of an enabled entry.
  lemma EntryNamed(ents: seq<Entry>, ifaces: seq<Outbound>, name: string)
    requires EntryTag(name) in HaveOut(ents) + OutTags(ifaces)
    requires forall o :: o in ifaces ==> IsIfaceOut(o)
    ensures EntryThere(ents, EntryTag(name))
  {
    hide EntryTag, IfaceTag;
    TagFamilies(name, "", 0, "");
    forall o | o in ifaces ensures o.tag != EntryTag(name) {
      var n :| o == IfaceOutbound(n);
      TagFamilies(name, n, 0, "");
    }
  }

  // ---- which configs are compiled at all --------------------------------------------

  predicate Complete(u: UserInbound) {
    u.protocol in {"socks", "vless", "vmess", "trojan", "hysteria"} && (u.protocol == "socks" || u.streamOk)
  }

  // A target that leads somewhere: direct, an enabled entry, or an interface.
  ghost predicate LeadsOut(entries: seq<Entry>, t: string) {
    SaysDirect(t) || (exists n :: SaysEntry(t, n) && EntryThere(entries, EntryTag(n))) || exists x :: SaysIface(t, x)
  }

  // A config is compiled exactly when every enabled entry's outbound parses and
  // every listening inbound is complete and targets something that is there.
  lemma CompilesIff(entries: seq<Entry>, inbounds: seq<UserInbound>, slots: seq<Slot>, opts: Options)
    ensures Compiled(entries, inbounds, slots, opts).Ok? <==>
            && (forall e :: e in entries && e.enabled ==> e.outbound.Stored?)
            && (forall u :: u in inbounds && Listening(u) ==> Complete(u) && LeadsOut(entries, u.target))
  {
    var ents, ins, sl := SortBy(ByEntryName(), entries), SortBy(ByInboundName(), inbounds), SortBy(ByIndex(), slots);
    var ifaces := IfaceOutbounds(ins, HaveOut(ents));
    var have := HaveOut(ents) + OutTags(ifaces);
    SortedSame(entries, inbounds, slots);
    EntriesParseIff(ents, SlotNames(sl));
    FrontBuiltIff(ins, have);
    forall u | u in ins && Listening(u) ensures Emitted(u, have) <==> Complete(u) && LeadsOut(entries, u.target) {
      EmittedIff(entries, ents, ins, u);
    }
    hide EntryOutbounds, IfaceOutbounds, SlotNames, FrontOf, PoolsOf, Listening, Emitted, Complete, LeadsOut, HaveOut;
  }

  lemma {:induction false} EntriesParseIff(ents: seq<Entry>, slotted: set<string>)
    ensures EntryOutbounds(ents, slotted).Ok? <==> forall e :: e in ents && e.enabled ==> e.outbound.Stored?
  {
    if ents != [] {
      var init, e := ents[..|ents| - 1], ents[|ents| - 1];
      assert ents == init + [e];
      EntriesParseIff(init, slotted);
      assert EntryOutbound(e, slotted).Ok? <==> e.outbound.Stored?;
      hide EntryOutbound;
    }
  }

  lemma {:induction false} FrontBuiltIff(ins: seq<UserInbound>, have: set<string>)
    ensures FrontOf(ins, have).Ok? <==> forall u :: u in ins && Listening(u) ==> Emitted(u, have)
  {
    hide ParseTarget, OutboundTagFor, InboundTag, BuildInbound, Listening;
    if ins != [] {
      var init, u := ins[..|ins| - 1], ins[|ins| - 1];
      assert ins == init + [u];
      FrontBuiltIff(init, have);
    }
  }

  lemma EmittedIff(entries: seq<Entry>, ents: seq<Entry>, ins: seq<UserInbound>, u: UserInbound)
    requires u in ins && Listening(u) && forall e :: e in ents <==> e in entries
    ensures Emitted(u, HaveOut(ents) + OutTags(IfaceOutbounds(ins, HaveOut(ents)))) <==>
            Complete(u) && LeadsOut(entries, u.target)
  {
    FormsAre(u.target);
    assert BuildInbound(u).Ok? <==> Complete(u);
    hide BuildInbound, Complete, ParseTarget, SaysDirect, SaysEntry, SaysIface, EntryTag, IfaceTag, IfaceOutbounds,
         HaveOut, Listening;
    if ParseTarget(u.target).Ok? { TargetHad(entries, ents, ins, u); }
  }

  lemma TargetHad(entries: seq<Entry>, ents: seq<Entry>, ins: seq<UserInbound>, u: UserInbound)
    requires u in ins && Listening(u) && ParseTarget(u.target).Ok? && forall e :: e in ents <==> e in entries
    ensures var t := ParseTarget(u.target).value;
            OutboundTagFor(t) in HaveOut(ents) + OutTags(IfaceOutbounds(ins, HaveOut(ents))) <==>
            (t.ToXray? || t.ToMaster? ==> EntryThere(entries, EntryTag(t.name)))
  {
    var ifaces, t := IfaceOutbounds(ins, HaveOut(ents)), ParseTarget(u.target).value;
    IfaceFamily(ins, HaveOut(ents));
    hide ParseTarget, EntryTag, IfaceTag, IfaceOutbounds;
    if (t.ToXray? || t.ToMaster?) && EntryTag(t.name) in HaveOut(ents) + OutTags(ifaces) {
      EntryNamed(ents, ifaces, t.name);
    }
  }

  // ---- which interface the traffic leaves by ------------------------------------------

  predicate Aims(inbounds: seq<UserInbound>, x: string) {
    exists u :: u in inbounds && u.enabled && SaysIface(u.target, x)
  }

  // One outbound has the interface's tag, and it is the freedom one bound to it.
  predicate BoundTo(obs: seq<Outbound>, x: string) {
    && HasTag(obs, IfaceTag(x))
    && forall o :: o in obs && o.tag == IfaceTag(x) ==>
                     o == Outbound(IfaceTag(x), "freedom", "", Settings(x, false))
  }

  // Every interface that is targeted is the one its traffic leaves by, exactly
  // when no two interfaces that are targeted share a tag.
  lemma IfacesReachedIff(entries: seq<Entry>, inbounds: seq<UserInbound>, slots: seq<Slot>, opts: Options)
    requires Compiled(entries, inbounds, slots, opts).Ok?
    ensures var obs := Compiled(entries, inbounds, slots, opts).value.outbounds;
            (forall x :: Aims(inbounds, x) ==> BoundTo(obs, x)) <==>
            (forall x, y :: Aims(inbounds, x) && Aims(inbounds, y) && IfaceTag(x) == IfaceTag(y) ==> x == y)
  {
    var obs := Compiled(entries, inbounds, slots, opts).value.outbounds;
    forall x | Aims(inbounds, x)
      ensures exists y :: Aims(inbounds, y) && IfaceTag(y) == IfaceTag(x) && BoundTo(obs, y)
    {
      FirstAimed(entries, inbounds, slots, opts, x);
    }
    hide Compiled, Aims, IfaceTag, BoundTo;
    forall x, y | BoundTo(obs, x) && BoundTo(obs, y) && IfaceTag(x) == IfaceTag(y) ensures x == y {
      BoundApart(obs, x, y);
    }
  }

  lemma BoundApart(obs: seq<Outbound>, x: string, y: string)
    requires BoundTo(obs, x) && BoundTo(obs, y) && IfaceTag(x) == IfaceTag(y)
    ensures x == y
  {
    hide IfaceTag;
    var o :| o in obs && o.tag == IfaceTag(x);
  }

  // An interface's tag is bound to one of the interfaces that are targeted.
  lemma FirstAimed(entries: seq<Entry>, inbounds: seq<UserInbound>, slots: seq<Slot>, opts: Options, x: string)
    requires Compiled(entries, inbounds, slots, opts).Ok? && Aims(inbounds, x)
    ensures exists y :: Aims(inbounds, y) && IfaceTag(y) == IfaceTag(x) &&
                        BoundTo(Compiled(entries, inbounds, slots, opts).value.outbounds, y)
  {
    var ents, ins, sl := SortBy(ByEntryName(), entries), SortBy(ByInboundName(), inbounds), SortBy(ByIndex(), slots);
    var have := HaveOut(ents);
    var ifaces, obs := IfaceOutbounds(ins, have), EntryOutbounds(ents, SlotNames(sl)).value;
    var pools := PoolsOf(sl, opts).outbounds;
    SortedSame(entries, inbounds, slots);
    EntryFamily(ents, SlotNames(sl));
    hide EntryOutbounds, IfaceOutbounds, SlotNames, FrontOf, PoolsOf, HaveOut, IfaceTag, SaysIface, IsEntryOut, BoundTo;
    NoIfaceHad(ents, x);
    var y := FirstWithTag(ins, have, x);
    EntriesOffIface(obs, y);
    PoolsOffIface(sl, opts, y);
    BoundIn(ins, have, obs, pools, y);
    assert Compiled(entries, inbounds, slots, opts).value.outbounds == [BLOCK, DIRECT] + obs + ifaces + pools;
  }

  lemma FirstWithTag(ins: seq<UserInbound>, have: set<string>, x: string) returns (y: string)
    requires Aims(ins, x) && IfaceTag(x) !in have
    ensures Aims(ins, y) && IfaceTag(y) == IfaceTag(x) && IfaceOutbound(y) in IfaceOutbounds(ins, have)
  {
    var u :| u in ins && u.enabled && SaysIface(u.target, x);
    AimIs(u, x);
    IfaceFamily(ins, have);
    IfacesFrom(ins, have);
    hide IfaceOutbounds, SaysIface, ParseTarget, IfaceTag;
    var o :| o in IfaceOutbounds(ins, have) && o.tag == IfaceTag(x);
    var v :| v in ins && TargetsIface(v) && o == IfaceOutbound(ParseTarget(v.target).value.name);
    y := ParseTarget(v.target).value.name;
    AimIs(v, y);
  }

  lemma BoundIn(ins: seq<UserInbound>, have: set<string>, obs: seq<Outbound>, pools: seq<Outbound>, y: string)
    requires IfaceOutbound(y) in IfaceOutbounds(ins, have)
    requires forall o :: o in obs || o in pools ==> o.tag != IfaceTag(y)
    ensures BoundTo([BLOCK, DIRECT] + obs + IfaceOutbounds(ins, have) + pools, y)
  {
    IfacesFrom(ins, have);
    TagFamilies(y, "", 0, "");
    hide IfaceOutbounds, ParseTarget, IfaceTag;
    assert IfaceOutbound(y) in [BLOCK, DIRECT] + obs + IfaceOutbounds(ins, have) + pools;
  }

  lemma AimIs(u: UserInbound, x: string)
    ensures u.enabled && SaysIface(u.target, x) <==>
            TargetsIface(u) && ParseTarget(u.target).value.name == x
  {
    FormsAre(u.target);
    hide ParseTarget, SaysDirect, SaysEntry, SaysIface;
  }

  lemma NoIfaceHad(ents: seq<Entry>, x: string)
    ensures IfaceTag(x) !in HaveOut(ents)
  {
    hide EntryTag, IfaceTag;
    TagFamilies(x, "", 0, "");
    forall e | e in ents ensures EntryTag(e.name) != IfaceTag(x) { TagFamilies(e.name, x, 0, ""); }
  }

  lemma EntriesOffIface(obs: seq<Outbound>, x: string)
    requires forall o :: o in obs ==> IsEntryOut(o)
    ensures forall o :: o in obs ==> o.tag != IfaceTag(x)
  {
    hide EntryTag, IfaceTag;
    forall o | o in obs ensures o.tag != IfaceTag(x) {
      var n :| o.tag == EntryTag(n);
      TagFamilies(n, x, 0, "");
    }
  }

  lemma PoolsOffIface(slots: seq<Slot>, opts: Options, x: string)
    ensures forall o :: o in PoolsOf(slots, opts).outbounds ==> o.tag != IfaceTag(x)
  {
    PoolsFrom(slots, opts);
    hide PoolsOf, IfaceTag, DialerTag, SlotMemberTag;
    forall o | o in PoolsOf(slots, opts).outbounds ensures o.tag != IfaceTag(x) {
      var s :| s in slots && (o in DialerOutbounds(s, opts) || o in MemberOutbounds(s.index, s.members));
      if o in DialerOutbounds(s, opts) {
        var j :| 0 <= j < |SlotMasters(s)| && o == DialerOutbounds(s, opts)[j];
        TagFamilies(SlotMasters(s)[j], x, 0, "");
      } else {
        var ls := LoadedMembers(s.members);
        var j :| 0 <= j < |ls| && o == MemberOutbounds(s.index, s.members)[j];
        MemberTagPrefix(s.index, ls[j].key);
        TagFamilies(x, x, s.index, SlotMemberTag(s.index, ls[j].key));
      }
    }
  }

  // Every interface outbound is some inbound's, and no two share a tag.
  lemma {:induction false} IfacesFrom(ins: seq<UserInbound>, have: set<string>)
    ensures forall o :: o in IfaceOutbounds(ins, have) ==>
              exists v :: v in ins && TargetsIface(v) && o == IfaceOutbound(ParseTarget(v.target).value.name)
    ensures forall o, p :: o in IfaceOutbounds(ins, have) && p in IfaceOutbounds(ins, have) && o.tag == p.tag ==> o == p
  {
    hide ParseTarget, IfaceTag;
    if ins != [] {
      var init, u := ins[..|ins| - 1], ins[|ins| - 1];
      assert ins == init + [u];
      IfacesFrom(init, have);
      var before, after := IfaceOutbounds(init, have), IfaceOutbounds(ins, have);
      forall o | o in after
        ensures exists v :: v in ins && TargetsIface(v) && o == IfaceOutbound(ParseTarget(v.target).value.name)
      {
        if o in before {
          var v :| v in init && TargetsIface(v) && o == IfaceOutbound(ParseTarget(v.target).value.name);
          assert v in ins;
        } else {
          assert u in ins;
        }
      }
    }
  }

  // Two interfaces can: a.b and a:b.
  lemma IfaceNamesCollide()
    ensures IfaceName("a.b") && IfaceName("a:b") && "a.b" != "a:b" && IfaceTag("a.b") == IfaceTag("a:b")
  {
    assert "a.b"[1..] == ".b" && ".b"[1..] == "b" && "a:b"[1..] == ":b" && ":b"[1..] == "b";
    assert RunLength("b") == 0 && GapLength(".b") == 1 && GapLength(":b") == 1;
    assert Alike(".b", ":b");
    assert Core("a.b") == "a.b" && Core("a:b") == "a:b";
    SharedTagIff("a.b", "a:b");
    assert "a.b"[1] == '.' && "a:b"[1] == ':';
  }

  // ---- what an entry and a listener become ---------------------------------------------

  // As it was stored, but for the dialer: a master with a slot dials through its
  // own hop, one without dials block, and one whose protocol cannot dial through
  // another outbound is a blackhole.
  predicate CarriedAs(o: Outbound, e: Entry, hasSlot: bool) {
    && o.tag == EntryTag(e.name) && e.outbound.Stored?
    && if !Blank(e.dialer) && ToLower(e.outbound.protocol) == "hysteria" then o.protocol == "blackhole" &&
         o.dialer == ""
       else
         && o.protocol == e.outbound.protocol && o.body == Settings(e.outbound.text, e.mux && e.outbound.muxable)
         && o.dialer == if hasSlot then DialerTag(e.name) else if Blank(e.dialer) then e.outbound.dialerProxy
              else "block"
  }

  lemma EntryCarried(entries: seq<Entry>, inbounds: seq<UserInbound>, slots: seq<Slot>, opts: Options, e: Entry)
    requires Compiled(entries, inbounds, slots, opts).Ok? && e in entries && e.enabled
    ensures exists o :: o in Compiled(entries, inbounds, slots, opts).value.outbounds &&
                        CarriedAs(o, e, exists s :: s in slots && e.name in SlotMasters(s))
  {
    var ents, sl := SortBy(ByEntryName(), entries), SortBy(ByIndex(), slots);
    SortedSame(entries, inbounds, slots);
    EntryFamily(ents, SlotNames(sl));
    assert (exists s :: s in slots && e.name in SlotMasters(s)) <==> e.name in SlotNames(slots);
    hide EntryOutbounds, IfaceOutbounds, FrontOf, PoolsOf, HaveOut, EntryTag, DialerTag, SlotNames, CarriedAs;
    EntryAs(e, SlotNames(sl));
    hide EntryOutbound;
    assert EntryOutbound(e, SlotNames(sl)).value in Compiled(entries, inbounds, slots, opts).value.outbounds;
  }

  lemma EntryAs(e: Entry, slotted: set<string>)
    requires EntryOutbound(e, slotted).Ok?
    ensures CarriedAs(EntryOutbound(e, slotted).value, e, e.name in slotted)
  {
    hide EntryTag, DialerTag;
  }

  // An inbound that is enabled and has a port or a socket is in the config under its
  // tag, on its port, and lets in its own clients, or for socks its one account, if
  // it has one.
  lemma ListenerCarried(entries: seq<Entry>, inbounds: seq<UserInbound>, slots: seq<Slot>, opts: Options,
                        u: UserInbound)
    requires Compiled(entries, inbounds, slots, opts).Ok? && u in inbounds && u.enabled && (u.port != 0 || u.unix)
    ensures Inbound(InboundTag(u.name), u.protocol, if u.unix then 0 else u.port,
                    if u.protocol == "socks" then [] else u.clients,
                    if u.protocol == "socks" && u.socksUser != "" then [Account(u.socksUser, u.password)] else [],
                    u.text) in Compiled(entries, inbounds, slots, opts).value.inbounds
  {
    var ents, ins := SortBy(ByEntryName(), entries), SortBy(ByInboundName(), inbounds);
    var have := HaveOut(ents) + OutTags(IfaceOutbounds(ins, HaveOut(ents)));
    SortedSame(entries, inbounds, slots);
    FrontInbounds(ins, have, u);
    hide EntryOutbounds, IfaceOutbounds, SlotNames, FrontOf, PoolsOf, HaveOut, InboundTag;
    assert BuildInbound(u).value in Compiled(entries, inbounds, slots, opts).value.inbounds;
  }

  // And nothing else listens but the api and the slots.
  lemma OnlyListeners(entries: seq<Entry>, inbounds: seq<UserInbound>, slots: seq<Slot>, opts: Options, b: Inbound)
    requires Compiled(entries, inbounds, slots, opts).Ok?
    requires b in Compiled(entries, inbounds, slots, opts).value.inbounds
    ensures || b.tag == API_TAG || (exists s :: s in slots && b.tag == SlotInTag(s.index))
            || exists u :: u in inbounds && u.enabled && (u.port != 0 || u.unix) && b.tag == InboundTag(u.name)
  {
    var ents, ins, sl := SortBy(ByEntryName(), entries), SortBy(ByInboundName(), inbounds), SortBy(ByIndex(), slots);
    var have := HaveOut(ents) + OutTags(IfaceOutbounds(ins, HaveOut(ents)));
    SortedSame(entries, inbounds, slots);
    FrontOnly(ins, have);
    PoolsOnly(sl, opts);
    hide EntryOutbounds, IfaceOutbounds, SlotNames, FrontOf, PoolsOf, HaveOut, InboundTag, SlotInTag;
  }

  lemma {:induction false} FrontOnly(ins: seq<UserInbound>, have: set<string>)
    requires FrontOf(ins, have).Ok?
    ensures forall b :: b in FrontOf(ins, have).value.inbounds ==>
              exists u :: u in ins && u.enabled && (u.port != 0 || u.unix) && b.tag == InboundTag(u.name)
  {
    hide ParseTarget, OutboundTagFor, InboundTag;
    if ins != [] {
      var init, u := ins[..|ins| - 1], ins[|ins| - 1];
      assert ins == init + [u] && u in ins;
      FrontOnly(init, have);
    }
  }

  lemma {:induction false} PoolsOnly(slots: seq<Slot>, opts: Options)
    ensures forall b :: b in PoolsOf(slots, opts).inbounds ==> exists s :: s in slots && b.tag == SlotInTag(s.index)
  {
    hide DialerOutbounds, MemberOutbounds, SlotRules, SlotBalancers, SlotInTag;
    if slots != [] {
      var init, s := slots[..|slots| - 1], slots[|slots| - 1];
      assert slots == init + [s] && s in slots;
      PoolsOnly(init, opts);
    }
  }

  predicate Tunnels(protocol: string) {
    ToLower(protocol) in
      {"vless", "vmess", "trojan", "shadowsocks", "socks", "http", "hysteria", "wireguard"}
  }

  predicate MemberAs(o: Outbound, idx: nat, m: Member) {
    && m.outbound.Stored? && Tunnels(m.outbound.protocol)
    && o == Outbound(SlotMemberTag(idx, m.key), m.outbound.protocol, m.outbound.dialerProxy,
                     Settings(m.outbound.text, false))
  }

  // Of a slot's members exactly those that parse and tunnel are in the config, as
  // stored, without multiplexing.
  lemma MemberCarried(entries: seq<Entry>, inbounds: seq<UserInbound>, slots: seq<Slot>, opts: Options, s: Slot,
                      o: Outbound)
    requires Compiled(entries, inbounds, slots, opts).Ok? && s in slots && SlotOutPrefix(s.index) <= o.tag
    requires forall t :: t in slots && t.index == s.index ==> t == s
    ensures o in Compiled(entries, inbounds, slots, opts).value.outbounds <==>
            exists m :: m in s.members && MemberAs(o, s.index, m)
  {
    var ents, ins, sl := SortBy(ByEntryName(), entries), SortBy(ByInboundName(), inbounds), SortBy(ByIndex(), slots);
    SortedSame(entries, inbounds, slots);
    OnlySlots(ents, ins, sl, opts, s, o);
    hide EntryOutbounds, IfaceOutbounds, SlotNames, FrontOf, PoolsOf, HaveOut, SlotMemberTag, SlotOutPrefix;
    MembersAre(s.index, s.members, o);
    hide MemberOutbounds;
    assert Compiled(entries, inbounds, slots, opts).value.outbounds ==
           [BLOCK, DIRECT] + EntryOutbounds(ents, SlotNames(sl)).value + IfaceOutbounds(ins, HaveOut(ents)) +
           PoolsOf(sl, opts).outbounds;
  }

  lemma MembersAre(idx: nat, ms: seq<Member>, o: Outbound)
    ensures o in MemberOutbounds(idx, ms) <==>
            exists m :: m in ms && MemberAs(o, idx, m)
  {
    hide SlotMemberTag;
    var ls, os := LoadedMembers(ms), MemberOutbounds(idx, ms);
    if o in os {
      var j :| 0 <= j < |ls| && os[j] == o;
      assert ls[j] in ls;
    }
    if m :| m in ms && MemberAs(o, idx, m) {
      assert m in ls;
      var j :| 0 <= j < |ls| && ls[j] == m;
      assert os[j] == o;
    }
  }

  // Nothing but the slot's own members has a tag with its prefix.
  lemma OnlySlots(ents: seq<Entry>, ins: seq<UserInbound>, sl: seq<Slot>, opts: Options, s: Slot, o: Outbound)
    requires EntryOutbounds(ents, SlotNames(sl)).Ok? && s in sl && SlotOutPrefix(s.index) <= o.tag
    requires forall t :: t in sl && t.index == s.index ==> t == s
    ensures o != BLOCK && o != DIRECT && o !in EntryOutbounds(ents, SlotNames(sl)).value
    ensures o !in IfaceOutbounds(ins, HaveOut(ents))
    ensures o in PoolsOf(sl, opts).outbounds <==> o in MemberOutbounds(s.index, s.members)
  {
    EntryFamily(ents, SlotNames(sl));
    IfaceFamily(ins, HaveOut(ents));
    PoolsFrom(sl, opts);
    TagFamilies("", "", s.index, o.tag);
    hide EntryOutbounds, IfaceOutbounds, SlotNames, PoolsOf, HaveOut, SlotMemberTag, SlotOutPrefix, EntryTag, IfaceTag,
         DialerTag;
    if IsEntryOut(o) {
      var n :| o.tag == EntryTag(n);
      TagFamilies(n, n, s.index, o.tag);
    }
    if IsIfaceOut(o) {
      var n :| o == IfaceOutbound(n);
      TagFamilies(n, n, s.index, o.tag);
    }
    forall t | t in sl && (o in DialerOutbounds(t, opts) || o in MemberOutbounds(t.index, t.members))
      ensures t == s && o in MemberOutbounds(s.index, s.members)
    {
      TagInSlot(t, opts, s.index, o);
    }
  }

  lemma TagInSlot(t: Slot, opts: Options, idx: nat, o: Outbound)
    requires SlotOutPrefix(idx) <= o.tag
    ensures o !in DialerOutbounds(t, opts)
    ensures o in MemberOutbounds(t.index, t.members) ==> t.index == idx
  {
    hide SlotOutPrefix, DialerTag;
    var ms, ls := SlotMasters(t), LoadedMembers(t.members);
    if o in DialerOutbounds(t, opts) {
      var j :| 0 <= j < |ms| && o == DialerOutbounds(t, opts)[j];
      TagFamilies(ms[j], "", idx, o.tag);
    }
    if o in MemberOutbounds(t.index, t.members) {
      var j :| 0 <= j < |ls| && o == MemberOutbounds(t.index, t.members)[j];
      SlotPrefixSeparates(idx, t.index, SanitizeKey(ls[j].key));
    }
  }

  lemma {:induction false} FrontInbounds(ins: seq<UserInbound>, have: set<string>, u: UserInbound)
    requires FrontOf(ins, have).Ok? && u in ins && Listening(u)
    ensures BuildInbound(u).Ok? && BuildInbound(u).value in FrontOf(ins, have).value.inbounds
  {
    hide ParseTarget, OutboundTagFor, InboundTag, BuildInbound, Listening;
    var init, v := ins[..|ins| - 1], ins[|ins| - 1];
    assert ins == init + [v];
    if u in init { FrontInbounds(init, have, u); }
  }
}
