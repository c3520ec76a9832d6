// Where the traffic of a master ends: at a loaded member of its own pool, at
// block, or nowhere.
module OwnPool {
  import opened Wrappers
  import opened Text
  import opened Sorting
  import opened Tags
  import opened XrayConfig
  import opened Generate
  import opened RoutingTable
  import opened FailClosed
  import opened LivePlan
  import opened LiveApply
  import opened NoLeak

  // The process of a compiled config.
  ghost predicate Runs(i: Inputs, lc: LiveConfig) {
    && Fed(i.inbounds, i.slots) && DistinctIndices(i.slots)
    && Compilation(i).Ok? && Decomposes(Compilation(i).value, lc)
  }

  // Block, or a loaded member of the slot.
  ghost predicate InPool(lc: LiveConfig, s: Slot, tag: string) {
    tag == "block" || (tag in lc.outbounds && lc.outbounds[tag] in MemberOutbounds(s.index, s.members))
  }

  lemma RunningSound(i: Inputs, lc: LiveConfig)
    requires Runs(i, lc)
    ensures SoundProcess(Running(lc)) && "block" in lc.outbounds && lc.outbounds["block"] == BLOCK
  {
    var cfg := Compilation(i).value;
    hide Compiled, SoundOutbound, SoundInbound, SoundRule, SoundBalancer;
    CompiledSound(i.entries, i.inbounds, i.slots, i.opts);
    assert cfg.outbounds[0] in cfg.outbounds;
    MixSound(Running(lc), lc, lc, cfg, cfg);
  }

  // A tag that some outbound of the config carries names that outbound.
  lemma Named(cfg: Config, lc: LiveConfig, o: Outbound)
    requires Decomposes(cfg, lc) && o in cfg.outbounds
    ensures o.tag in lc.outbounds && lc.outbounds[o.tag] == o
  {
  }

  lemma PoolParts(i: Inputs, s: Slot)
    requires Compilation(i).Ok? && s in i.slots
    ensures SlotInbound(s) in Compilation(i).value.inbounds
    ensures forall o :: o in MemberOutbounds(s.index, s.members) ==> o in Compilation(i).value.outbounds
  {
    hide EntryOutbounds, IfaceOutbounds, FrontOf, PoolsOf, SlotInbound, MemberOutbounds, DialerOutbounds, SlotNames;
    SortedSame(i.entries, i.inbounds, i.slots);
    PoolsFrom(SortBy(ByIndex(), i.slots), i.opts);
  }

  lemma MemberLeaves(p: Process, tag: string, user: string, x: Behaviour, steps: nat)
    requires tag in p.outbounds && IsMemberOut(p.outbounds[tag])
    ensures Fates(p, tag, user, x, steps) in {Nowhere, LeavesBy(tag)}
  {
    HopFate(p, tag, user, x, steps);
    hide Fates, NextStop;
    assert "blackhole"[0] == 'b' && "loopback"[0] == 'l';
  }

  lemma BlockEnds(i: Inputs, lc: LiveConfig, user: string, x: Behaviour, steps: nat)
    requires Runs(i, lc)
    ensures !Fates(Running(lc), "block", user, x, steps).LeavesBy?
  {
    hide Runs, Fates, NextStop;
    RunningSound(i, lc);
    HopFate(Running(lc), "block", user, x, steps);
    BlackholeBlocks();
  }

  lemma InPoolEnds(i: Inputs, lc: LiveConfig, s: Slot, tag: string, user: string, x: Behaviour, steps: nat)
    requires Runs(i, lc) && s in i.slots && InPool(lc, s, tag)
    ensures var f := Fates(Running(lc), tag, user, x, steps); f.LeavesBy? ==> InPool(lc, s, f.tag) && f.tag != "block"
  {
    hide Runs, Fates, IsMemberOut, MemberOutbounds;
    if tag == "block" {
      BlockEnds(i, lc, user, x, steps);
    } else {
      PoolMember(i, lc, s, lc.outbounds[tag]);
      MemberLeaves(Running(lc), tag, user, x, steps);
    }
  }

  lemma PoolMember(i: Inputs, lc: LiveConfig, s: Slot, o: Outbound)
    requires Runs(i, lc) && s in i.slots && o in MemberOutbounds(s.index, s.members)
    ensures IsMemberOut(o)
  {
    SlotFamily(s, i.opts);
  }

  // ---- what a slot does with its master's traffic ---------------------------------------

  // Whatever its balancer makes of the members' health, a slot hands its master's
  // traffic to one of them, or to block.
  lemma SlotHandsOn(i: Inputs, lc: LiveConfig, s: Slot, m: string, h: Health)
    requires Runs(i, lc) && s in i.slots && m in SlotMasters(s)
    ensures InPool(lc, s, Handler(Running(lc), SlotInTag(s.index), DialerEmail(m), h))
  {
    RunningSound(i, lc);
    DefaultBlock(Running(lc));
    var b := SlotBalances(i, lc, s, m);
    ChoiceInPool(i, lc, s, b, h);
    hide Runs, SoundProcess, SlotInTag, SlotBalTag, DialerEmail, RuleFor, BalancerFor, Choice, InPool, SlotMasters;
    Balanced(Running(lc), SlotInTag(s.index), DialerEmail(m), SlotBalTag(s.index, m), b, h);
    BlockInPool(lc, s);
  }

  lemma BlockInPool(lc: LiveConfig, s: Slot)
    ensures InPool(lc, s, "block")
  {
  }

  // What a rule to a balancer hands a connection to.
  lemma Balanced(p: Process, inTag: string, user: string, balTag: string, b: Balancer, h: Health)
    requires RuleFor(p.routing.rules, inTag, user) == Some(ToBalancer(inTag, user, balTag))
    requires BalancerFor(p.routing.balancers, balTag) == Some(b)
    ensures Handler(p, inTag, user, h) == if Choice(p, b, h) in p.outbounds then Choice(p, b, h) else p.default
  {
    hide Choice;
  }

  // The rule and the balancer in force for a slot's master.
  lemma SlotBalances(i: Inputs, lc: LiveConfig, s: Slot, m: string) returns (b: Balancer)
    requires Runs(i, lc) && s in i.slots && m in SlotMasters(s)
    ensures RuleFor(lc.routing.rules, SlotInTag(s.index), DialerEmail(m)) ==
            Some(ToBalancer(SlotInTag(s.index), DialerEmail(m), SlotBalTag(s.index, m)))
    ensures BalancerFor(lc.routing.balancers, SlotBalTag(s.index, m)) == Some(b)
    ensures FallsBackToOwn(s, b)
    ensures forall o :: o in Compilation(i).value.outbounds && Caught(b, o.tag) ==>
              o in MemberOutbounds(s.index, s.members)
  {
    var cfg := Compilation(i).value;
    hide Compiled, SlotInTag, SlotBalTag, DialerEmail, RuleFor, BalancerFor, Caught, FallsBackToOwn, MemberOutbounds,
         Confined, SlotMasters;
    SlotHops(i.entries, i.inbounds, i.slots, i.opts, s, m);
    MasterReachesOwn(i.entries, i.inbounds, i.slots, i.opts, s, m);
    b := BalancerFor(cfg.routing.balancers, SlotBalTag(s.index, m)).value;
  }

  lemma DefaultBlock(p: Process)
    requires SoundProcess(p)
    ensures p.default == "block"
  {
  }

  lemma ChoiceInPool(i: Inputs, lc: LiveConfig, s: Slot, b: Balancer, h: Health)
    requires Runs(i, lc) && s in i.slots && FallsBackToOwn(s, b)
    requires forall o :: o in Compilation(i).value.outbounds && Caught(b, o.tag) ==>
               o in MemberOutbounds(s.index, s.members)
    ensures var t := Choice(Running(lc), b, h); t in lc.outbounds ==> InPool(lc, s, t)
  {
    var cfg, t := Compilation(i).value, Choice(Running(lc), b, h);
    PoolParts(i, s);
    hide Compiled, MemberOutbounds, Caught;
    if t in Candidates(Running(lc), b) {
      assert lc.outbounds[t] in cfg.outbounds && lc.outbounds[t].tag == t;
    } else if b.fallback != "block" {
      var o :| o in MemberOutbounds(s.index, s.members) && o.tag == b.fallback;
      Named(cfg, lc, o);
    }
  }

  // The inbound on a slot's port is the slot's, and knows a master's id by its email.
  lemma SlotListens(i: Inputs, lc: LiveConfig, s: Slot, m: string, inTag: string)
    requires Runs(i, lc) && s in i.slots && Listens(Running(lc), inTag, SlotPort(s.index))
    ensures inTag == SlotInTag(s.index)
    ensures UserOf(lc.inbounds[inTag].clients, DialerId(m)) in {None, Some(DialerEmail(m))}
  {
    RunningSound(i, lc);
    PoolParts(i, s);
    assert s.index < SLOT_COUNT;
    OnSlotPort(Running(lc), inTag, s.index);
    hide Compiled, SlotInTag, SoundProcess, DialerEmail;
    assert lc.inbounds[SlotInbound(s).tag] == SlotInbound(s);
    KnownByEmail(SlotInbound(s).clients, m);
  }

  lemma OnSlotPort(p: Process, inTag: string, idx: nat)
    requires SoundProcess(p) && idx < SLOT_COUNT && Listens(p, inTag, SlotPort(idx))
    ensures inTag == SlotInTag(idx)
  {
    hide SlotInTag;
    var b := p.inbounds[inTag];
    assert SlotPortTaken(b.port) && IsSlotIn(b);
    var j: nat :| j < SLOT_COUNT && b.tag == SlotInTag(j) && b.port == SlotPort(j);
  }

  lemma {:induction false} KnownByEmail(clients: seq<Client>, m: string)
    requires forall c :: c in clients ==> exists n :: c == Client(DialerId(n), "", "", DialerEmail(n))
    ensures UserOf(clients, DialerId(m)) in {None, Some(DialerEmail(m))}
  {
    hide DialerEmail;
    if clients != [] {
      assert clients[0] in clients;
      forall c | c in clients[1..] ensures exists n :: c == Client(DialerId(n), "", "", DialerEmail(n)) {
        assert c in clients;
      }
      KnownByEmail(clients[1..], m);
    }
  }

  lemma HopEnds(i: Inputs, lc: LiveConfig, s: Slot, m: string, user: string, x: Behaviour, steps: nat)
    requires Runs(i, lc) && s in i.slots && m in SlotMasters(s)
    ensures var f := Fates(Running(lc), DialerTag(m), user, x, steps);
            f.LeavesBy? ==> InPool(lc, s, f.tag) && f.tag != "block"
  {
    hide Runs, Fates, Handler, InPool, SlotInTag, DialerEmail, DialerTag, SlotMasters, DialerOutbound, Listens, UserOf;
    var p := Running(lc);
    HopIs(i, lc, s, m);
    HopFate(p, DialerTag(m), user, x, steps);
    if steps > 0 {
      var inTag, login := HopLogsIn(p, DialerTag(m), s.index, m, i.opts, user, x, steps);
      if Fates(p, DialerTag(m), user, x, steps) != Nowhere {
        SlotListens(i, lc, s, m, inTag);
        SlotHandsOn(i, lc, s, m, x.health);
        InPoolEnds(i, lc, s, Handler(p, inTag, login, x.health), login, x, steps - 1);
      }
    }
  }

  lemma HopIs(i: Inputs, lc: LiveConfig, s: Slot, m: string)
    requires Runs(i, lc) && s in i.slots && m in SlotMasters(s)
    ensures DialerTag(m) in lc.outbounds && lc.outbounds[DialerTag(m)] == DialerOutbound(s.index, m, i.opts)
  {
    hide SlotInTag, SlotBalTag, Confined, RuleFor, BalancerFor;
    SlotHops(i.entries, i.inbounds, i.slots, i.opts, s, m);
    Named(Compilation(i).value, lc, DialerOutbound(s.index, m, i.opts));
  }

  // ---- the main result ---------------------------------------------------------------------

  lemma EntryCompiled(i: Inputs, e: Entry)
    requires Compilation(i).Ok? && e in i.entries && e.enabled
    ensures EntryOutbound(e, SlotNames(i.slots)).Ok?
    ensures EntryOutbound(e, SlotNames(i.slots)).value in Compilation(i).value.outbounds
  {
    hide EntryOutbounds, EntryOutbound, IfaceOutbounds, FrontOf, PoolsOf, SlotNames, IsEntryOut;
    SortedSame(i.entries, i.inbounds, i.slots);
    EntryFamily(SortBy(ByEntryName(), i.entries), SlotNames(SortBy(ByIndex(), i.slots)));
  }

  // The outbound of a loaded member of a pool the entry draws on.
  ghost predicate OwnMember(i: Inputs, lc: LiveConfig, e: Entry, tag: string) {
    exists s :: s in i.slots && e.name in SlotMasters(s) && tag in lc.outbounds &&
                lc.outbounds[tag] in MemberOutbounds(s.index, s.members)
  }

  // In a compiled config, traffic routed to a master whose protocol obeys its
  // dialer leaves by a loaded member of that master's own pool, or not at all.
  lemma MasterEndsInOwnPool(
      i: Inputs, lc: LiveConfig, e: Entry, inTag: string, user: string, x: Behaviour, steps: nat)
    requires Runs(i, lc) && e in i.entries && e.enabled && IsMaster(e)
    requires MasterAllowed(e.outbound) ==> Obeys(x, e.outbound.protocol)
    requires RuleFor(lc.routing.rules, inTag, user) == Some(ToOutbound(inTag, EntryTag(e.name)))
    ensures var p := Running(lc);
            var f := Fates(p, Handler(p, inTag, user, x.health), user, x, steps);
            f.LeavesBy? ==> OwnMember(i, lc, e, f.tag)
  {
    hide Compiled, EntryTag, Fates, Runs, Obeys, OwnMember, MasterAllowed, IsMaster, DialerTag, ToLower, RuleFor;
    MasterOutbound(i, lc, e, x);
    EntryEnds(i, lc, e, user, x, steps);
  }

  // What a master is in the running process.
  lemma MasterOutbound(i: Inputs, lc: LiveConfig, e: Entry, x: Behaviour)
    requires Runs(i, lc) && e in i.entries && e.enabled && IsMaster(e)
    requires MasterAllowed(e.outbound) ==> Obeys(x, e.outbound.protocol)
    ensures EntryTag(e.name) in lc.outbounds && Obeys(x, lc.outbounds[EntryTag(e.name)].protocol)
    ensures var o := lc.outbounds[EntryTag(e.name)];
            || ToLower(o.protocol) == "blackhole"
            || o.dialer == "block"
            || (o.dialer == DialerTag(e.name) && exists s :: s in i.slots && e.name in SlotMasters(s))
  {
    EntryCompiled(i, e);
    var o := EntryOutbound(e, SlotNames(i.slots)).value;
    hide Compiled, EntryOutbound, EntryTag, DialerTag, Obeys, SlotNames, MasterAllowed, Masterly, IsMaster;
    Named(Compilation(i).value, lc, o);
    EntryMasterly(e, SlotNames(i.slots), x);
    EntryTagged(e, SlotNames(i.slots));
    MasterDials(i, e, o);
  }

  lemma EntryEnds(i: Inputs, lc: LiveConfig, e: Entry, user: string, x: Behaviour, steps: nat)
    requires Runs(i, lc) && EntryTag(e.name) in lc.outbounds && Obeys(x, lc.outbounds[EntryTag(e.name)].protocol)
    requires var o := lc.outbounds[EntryTag(e.name)];
             || ToLower(o.protocol) == "blackhole"
             || o.dialer == "block"
             || (o.dialer == DialerTag(e.name) && exists s :: s in i.slots && e.name in SlotMasters(s))
    ensures var f := Fates(Running(lc), EntryTag(e.name), user, x, steps); f.LeavesBy? ==> OwnMember(i, lc, e, f.tag)
  {
    hide Runs, Fates, SlotMasters, Obeys, EntryTag, DialerTag, OwnMember, InPool, ToLower;
    var o := lc.outbounds[EntryTag(e.name)];
    DialerTagNonEmpty(e.name);
    ObedientHop(Running(lc), EntryTag(e.name), user, x, steps);
    if steps > 0 && ToLower(o.protocol) != "blackhole" {
      if o.dialer == "block" {
        BlockEnds(i, lc, user, x, steps - 1);
      } else {
        var s :| s in i.slots && e.name in SlotMasters(s);
        HopEnds(i, lc, s, e.name, user, x, steps - 1);
        OwnMemberOf(i, lc, e, s);
      }
    }
  }

  lemma ObedientHop(p: Process, tag: string, user: string, x: Behaviour, steps: nat)
    requires tag in p.outbounds && Obeys(x, p.outbounds[tag].protocol)
    ensures var o, f := p.outbounds[tag], Fates(p, tag, user, x, steps);
            if steps == 0 then f == Nowhere
            else if ToLower(o.protocol) == "blackhole" then f == Blackholed
            else o.dialer != "" ==> f == Fates(p, o.dialer, user, x, steps - 1)
  {
    hide Handler, Fates;
    FateOf(p, tag, user, x, steps);
  }

  lemma OwnMemberOf(i: Inputs, lc: LiveConfig, e: Entry, s: Slot)
    requires s in i.slots && e.name in SlotMasters(s)
    ensures forall tag :: InPool(lc, s, tag) && tag != "block" ==> OwnMember(i, lc, e, tag)
  {
  }

  lemma MasterDials(i: Inputs, e: Entry, o: Outbound)
    requires IsMaster(e) && EntryOutbound(e, SlotNames(i.slots)) == Ok(o)
    ensures || ToLower(o.protocol) == "blackhole"
            || o.dialer == "block"
            || (o.dialer == DialerTag(e.name) && exists s :: s in i.slots && e.name in SlotMasters(s))
  {
    BlackholeBlocks();
    if e.name in SlotNames(i.slots) { SlotNamed(i.slots, e.name); }
  }
}
