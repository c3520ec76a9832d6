// What CheckMasterOutbound (core/xray/dialer.go) lets through besides protocols
// that obey their dialer: a loopback, whose traffic leaves by the direct outbound.
module LoopbackMaster {
  import opened Wrappers
  import opened Text
  import opened Sorting
  import opened Tags
  import opened Names
  import opened XrayConfig
  import opened Generate
  import opened FailClosed
  import opened RoutingTable
  import opened LivePlan
  import opened LiveApply
  import opened NoLeak

  // Two inbounds: a, to the master m, and d, to the internet.
  function Listener(name: string, port: nat, target: string): UserInbound {
    UserInbound(name, "socks", port, false, true, target, [], "", "", true, "")
  }

  function Built(name: string, port: nat): Inbound {
    Inbound(InboundTag(name), "socks", port, [], [], "")
  }

  // The master draws on a subscription without nodes, and its outbound is a
  // loopback to d. It has a slot all the same, with nothing in it.
  function Master(): Entry {
    Entry("m", Stored("loopback", "", InboundTag("d"), false), true, "xraysub:p", false)
  }

  function EmptySlot(): Slot {
    Slot("m", [], 0, [], MasterPick([], 0), map[])
  }

  const OPTIONS := Options(Fixed("", "", "", "", ""), false)

  function Listeners(): seq<UserInbound> {
    [Listener("a", 1080, "master:m"), Listener("d", 1081, "direct")]
  }

  function Given(): Inputs {
    Inputs([Master()], Listeners(), [EmptySlot()], OPTIONS)
  }

  function MasterOut(): Outbound {
    Outbound(EntryTag("m"), "loopback", DialerTag("m"), Settings(InboundTag("d"), false))
  }

  function FrontRules(): seq<Rule> {
    [ToOutbound(InboundTag("a"), EntryTag("m")), ToOutbound(InboundTag("d"), "direct")]
  }

  function GivenConfig(): Config {
    var s := EmptySlot();
    Config(OPTIONS.fixed,
           [Built("a", 1080), Built("d", 1081), API_INBOUND, SlotInbound(s)],
           [BLOCK, DIRECT, MasterOut(), DialerOutbound(0, "m", OPTIONS)],
           Routing([ToOutbound(API_TAG, API_TAG)] + FrontRules() + SlotRules(s), SlotBalancers(s)))
  }

  // ---- it is what the inputs compile to --------------------------------------------

  lemma LoopbackAllowed()
    ensures IsMaster(Master()) && MasterAllowed(Master().outbound) && ToLower("loopback") == "loopback"
  {
    hide InboundTag, ToLower;
    LowerIsFixed("loopback");
    assert "loopback"[0] == 'l' && "hysteria"[0] == 'h';
    assert "xraysub:p"[0] == 'x';
  }

  lemma Targets()
    ensures ParseTarget("master:m") == Ok(ToMaster("m")) && ParseTarget("direct") == Ok(ToDirect)
  {
    hide TrimSpace, Cut;
    TrimmedIsFixed("direct");
    TrimmedIsFixed("master:m");
    CutAt("master", ':', "m");
    assert "master" + [':'] + "m" == "master:m";
    assert "master:m"[0] == 'm' && "direct"[0] == 'd';
  }

  lemma Slotted()
    ensures SlotNames([EmptySlot()]) == {"m"}
  {
    var s := EmptySlot();
    assert SlotMasters(s) == ["m"] && s in [s] && "m" in SlotMasters(s);
  }

  lemma EntriesGiven()
    ensures EntryOutbounds([Master()], {"m"}) == Ok([MasterOut()])
  {
    LoopbackAllowed();
    hide EntryTag, InboundTag, DialerTag, MasterAllowed, IsMaster;
    var ents := [Master()];
    assert EntryOutbound(Master(), {"m"}) == Ok(MasterOut());
    hide EntryOutbound, Master, MasterOut;
    assert ents[..|ents| - 1] == [] && [] + [MasterOut()] == [MasterOut()];
  }

  lemma OneListener(name: string, port: nat, target: string)
    requires port > 0
    ensures Listening(Listener(name, port, target))
    ensures BuildInbound(Listener(name, port, target)) == Ok(Built(name, port))
  {
    hide InboundTag;
  }

  lemma FrontGiven(have: set<string>)
    requires "direct" in have && EntryTag("m") in have
    ensures FrontOf(Listeners(), have) == Ok(Front([Built("a", 1080), Built("d", 1081)], FrontRules()))
    ensures IfaceOutbounds(Listeners(), have) == []
  {
    var a, d := Listener("a", 1080, "master:m"), Listener("d", 1081, "direct");
    Targets();
    OneListener("a", 1080, "master:m");
    OneListener("d", 1081, "direct");
    assert OutboundTagFor(ToMaster("m")) == EntryTag("m") && OutboundTagFor(ToDirect) == "direct";
    hide EntryTag, InboundTag, ParseTarget, BuildInbound, Listening, Built, FrontOf, IfaceOutbounds, OutboundTagFor;
    NoIfaces(Listeners(), have);
    FrontTwo(a, d, have);
  }

  lemma SortedGiven()
    ensures SortBy(ByEntryName(), [Master()]) == [Master()] && SortBy(ByInboundName(), Listeners()) == Listeners()
    ensures SortBy(ByIndex(), [EmptySlot()]) == [EmptySlot()]
  {
    hide InboundTag;
    var a, d := Listener("a", 1080, "master:m"), Listener("d", 1081, "direct");
    assert [a, d][1..] == [d] && [d][1..] == [] && [Master()][1..] == [] && [EmptySlot()][1..] == [];
    assert Before("a", "d");
  }

  lemma PoolsGiven()
    ensures var s := EmptySlot();
            PoolsOf([s], OPTIONS) ==
            Pools([SlotInbound(s)], [DialerOutbound(0, "m", OPTIONS)], SlotRules(s), SlotBalancers(s))
  {
    hide SlotInbound, SlotRules, SlotBalancers, DialerOutbound;
    var s := EmptySlot();
    assert [s][..|[s]| - 1] == [];
    assert DialerOutbounds(s, OPTIONS) == [DialerOutbound(0, "m", OPTIONS)] && MemberOutbounds(0, s.members) == [];
    assert [] + [SlotInbound(s)] == [SlotInbound(s)] && [] + SlotRules(s) == SlotRules(s);
    assert [] + SlotBalancers(s) == SlotBalancers(s);
    assert [] + [DialerOutbound(0, "m", OPTIONS)] + [] == [DialerOutbound(0, "m", OPTIONS)];
  }

  lemma HaveGiven()
    ensures "direct" in HaveOut([Master()]) && EntryTag("m") in HaveOut([Master()])
  {
    hide EntryTag, InboundTag;
    assert Master() in [Master()];
  }

  lemma GivenCompiled()
    ensures Compilation(Given()) == Ok(GivenConfig())
  {
    SortedGiven();
    Slotted();
    EntriesGiven();
    HaveGiven();
    PoolsGiven();
    hide EntryTag, InboundTag, DialerTag, EntryOutbounds, IfaceOutbounds, FrontOf, SortBy, HaveOut, PoolsOf, SlotNames,
         Compiled, Master, MasterOut, Built, Listeners, FrontRules, EmptySlot, DialerOutbound, SlotInbound, SlotRules,
         SlotBalancers;
    FrontGiven(HaveOut([Master()]));
    var front := Front([Built("a", 1080), Built("d", 1081)], FrontRules());
    CompiledOf([Master()], Listeners(), [EmptySlot()], OPTIONS, [MasterOut()], front);
    Assembled(Built("a", 1080), Built("d", 1081), SlotInbound(EmptySlot()), MasterOut(),
              DialerOutbound(0, "m", OPTIONS));
  }

  lemma Assembled(a: Inbound, d: Inbound, slot: Inbound, m: Outbound, hop: Outbound)
    ensures [a, d] + [API_INBOUND] + [slot] == [a, d, API_INBOUND, slot]
    ensures [BLOCK, DIRECT] + [m] + [hop] == [BLOCK, DIRECT, m, hop]
  {
  }

  // ---- and can be addressed ---------------------------------------------------------

  lemma TagsGiven()
    ensures InboundTag("a") != InboundTag("d") && InboundTag("a") != "" && InboundTag("d") != ""
  {
    assert InboundTag("a")[0] == 'i' && InboundTag("d")[0] == 'i';
    hide InboundTag;
    assert "a"[0] == 'a' && "d"[0] == 'd';
    PlainInboundsApart("a", "d");
  }

  lemma InboundsApart()
    ensures Addressable(InboundTags(GivenConfig().inbounds))
  {
    TagsGiven();
    TagFamilies("a", "", 0, "");
    TagFamilies("d", "", 0, "");
    assert SlotInTag(0)[0] == 's';
    hide InboundTag, SlotInTag, EntryTag, DialerTag, SlotRules, SlotBalancers, MasterOut, DialerOutbound;
    assert InboundTags(GivenConfig().inbounds) == [InboundTag("a"), InboundTag("d"), API_TAG, SlotInTag(0)];
    hide GivenConfig;
    FourApart(InboundTag("a"), InboundTag("d"), API_TAG, SlotInTag(0));
  }

  lemma OutboundsApart()
    ensures Addressable(OutboundTags(GivenConfig().outbounds))
  {
    TagFamilies("m", "m", 0, "");
    DialerTagNonEmpty("m");
    assert EntryTag("m")[0] == 'o' && "block"[0] == 'b' && "direct"[0] == 'd';
    hide InboundTag, SlotInTag, EntryTag, DialerTag, SlotRules, SlotBalancers, SlotInbound, Built;
    assert OutboundTags(GivenConfig().outbounds) == ["block", "direct", EntryTag("m"), DialerTag("m")];
    hide GivenConfig;
    FourApart("block", "direct", EntryTag("m"), DialerTag("m"));
  }

  lemma FourApart(t0: string, t1: string, t2: string, t3: string)
    requires t0 != t1 && t0 != t2 && t0 != t3 && t1 != t2 && t1 != t3 && t2 != t3
    requires t0 != "" && t1 != "" && t2 != "" && t3 != ""
    ensures Addressable([t0, t1, t2, t3])
  {
  }

  lemma GivenHolds()
    ensures var lc := Decomposition(GivenConfig());
            && Decomposes(GivenConfig(), lc)
            && EntryTag("m") in lc.outbounds && lc.outbounds[EntryTag("m")] == MasterOut()
            && "direct" in lc.outbounds && lc.outbounds["direct"] == DIRECT
  {
    InboundsApart();
    OutboundsApart();
    hide InboundTag, SlotInTag, EntryTag, DialerTag, Decomposition, Addressable, SlotInbound, SlotRules, SlotBalancers,
         DialerOutbound, Built, FrontRules;
    DecompositionIs(GivenConfig());
    var os := GivenConfig().outbounds;
    assert os[1] == DIRECT && os[2] == MasterOut();
  }

  // ---- and where its traffic goes ---------------------------------------------------

  lemma RulesGiven(user: string)
    ensures var rules := GivenConfig().routing.rules;
            && RuleFor(rules, InboundTag("a"), user) == Some(ToOutbound(InboundTag("a"), EntryTag("m")))
            && RuleFor(rules, InboundTag("d"), user) == Some(ToOutbound(InboundTag("d"), "direct"))
  {
    TagsGiven();
    TagFamilies("a", "", 0, "");
    TagFamilies("d", "", 0, "");
    hide EntryTag, InboundTag, SlotRules, SlotBalancers, SlotInbound, DialerOutbound, MasterOut, Built;
    var rules := GivenConfig().routing.rules;
    var r1, r2 := rules[1..], rules[2..];
    assert rules[0] == ToOutbound(API_TAG, API_TAG) && rules[1] == FrontRules()[0] && rules[2] == FrontRules()[1];
    hide GivenConfig;
    assert r1[0] == rules[1] && r1[1..] == r2 && r2[0] == rules[2];
    assert RuleFor(r2, InboundTag("d"), user) == Some(r2[0]);
    assert RuleFor(r1, InboundTag("d"), user) == Some(r2[0]);
  }

  lemma DirectLeaves(q: Process, user: string, x: Behaviour)
    requires "direct" in q.outbounds && q.outbounds["direct"] == DIRECT
    ensures Fates(q, "direct", user, x, 1) == LeavesBy("direct")
  {
    hide Handler, Fates, ToLower;
    LowerIsFixed("freedom");
    HopFate(q, "direct", user, x, 1);
    assert "loopback"[0] == 'l' && "freedom"[0] == 'f' && "blackhole"[0] == 'b';
  }

  // What is sent to the loopback comes back as the user's traffic of inbound d.
  lemma BackAndOut(q: Process, tag: string, back: string, user: string, x: Behaviour)
    requires tag in q.outbounds && q.outbounds[tag].protocol == "loopback" &&
             q.outbounds[tag].body == Settings(back, false)
    requires RuleFor(q.routing.rules, back, user) == Some(ToOutbound(back, "direct"))
    requires "direct" in q.outbounds && q.outbounds["direct"] == DIRECT
    ensures Fates(q, tag, user, x, 2) == LeavesBy("direct")
  {
    hide RuleFor, Fates, ToLower;
    LowerIsFixed("loopback");
    FateOf(q, tag, user, x, 2);
    DirectLeaves(q, user, x);
  }

  // Every check lets this master through, it dials its own hop, and nothing is
  // loaded in its pool; yet what is sent to it leaves by the direct outbound,
  // whatever the balancers' health and whichever protocols ignore their dialer.
  lemma LoopbackMasterLeaks(user: string, x: Behaviour)
    ensures IsMaster(Master()) && MasterAllowed(Master().outbound) && Compilation(Given()) == Ok(GivenConfig())
    ensures Decomposes(GivenConfig(), Decomposition(GivenConfig()))
    ensures var q := Running(Decomposition(GivenConfig()));
            && EntryTag("m") in q.outbounds && q.outbounds[EntryTag("m")].dialer == DialerTag("m")
            && RuleFor(q.routing.rules, InboundTag("a"), user) == Some(ToOutbound(InboundTag("a"), EntryTag("m")))
            && Fates(q, Handler(q, InboundTag("a"), user, x.health), user, x, 2) == LeavesBy("direct")
            && "direct" in q.outbounds && q.outbounds["direct"].protocol == "freedom"
  {
    LoopbackAllowed();
    GivenCompiled();
    GivenHolds();
    RulesGiven(user);
    hide EntryTag, InboundTag, DialerTag, IsMaster, MasterAllowed, Compilation, RuleFor, Fates, Decomposes, GivenConfig,
         InboundsByTag, OutboundsByTag, CredsOf, Master, Given;
    BackAndOut(Running(Decomposition(GivenConfig())), EntryTag("m"), InboundTag("d"), user, x);
  }
}
