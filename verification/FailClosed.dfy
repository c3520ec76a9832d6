// What every compiled config guarantees: each object belongs to one of a few
// families, and every enabled master fails closed.
module FailClosed {
  import opened Wrappers
  import opened Text
  import opened Sorting
  import opened Tags
  import opened XrayConfig
  import opened Generate
  import opened RoutingTable

  // ---- the families of a config's objects -----------------------------------

  predicate SlotPortTaken(port: nat) {
    SLOT_PORT_START <= port < SLOT_PORT_START + SLOT_COUNT
  }

  ghost predicate IsEntryOut(o: Outbound) {
    o.body.Settings? && exists n :: o.tag == EntryTag(n)
  }

  ghost predicate IsIfaceOut(o: Outbound) {
    exists n :: o == IfaceOutbound(n)
  }

  ghost predicate IsDialerOut(o: Outbound) {
    exists i: nat, m, opts :: i < SLOT_COUNT && o == DialerOutbound(i, m, opts)
  }

  // A pool member: it tunnels, and dials its server itself.
  ghost predicate IsMemberOut(o: Outbound) {
    && (exists i: nat, k :: o.tag == SlotMemberTag(i, k))
    && TunnelProtocol(ToLower(o.protocol)) && o.dialer == "" && o.body.Settings?
  }

  ghost predicate SoundOutbound(o: Outbound) {
    o == BLOCK || o == DIRECT || IsEntryOut(o) || IsIfaceOut(o) || IsDialerOut(o) || IsMemberOut(o)
  }

  ghost predicate IsSlotIn(b: Inbound) {
    && (exists i: nat :: i < SLOT_COUNT && b.tag == SlotInTag(i) && b.port == SlotPort(i))
    && forall c :: c in b.clients ==> exists m :: c == Client(DialerId(m), "", "", DialerEmail(m))
  }

  // A slot's port is only ever the slot's own inbound.
  ghost predicate SoundInbound(b: Inbound) {
    IsSlotIn(b) || (!SlotPortTaken(b.port) && (b == API_INBOUND || exists n :: b.tag == InboundTag(n)))
  }

  ghost predicate IsSlotRule(r: Rule) {
    exists i: nat, m :: r == ToBalancer(SlotInTag(i), DialerEmail(m), SlotBalTag(i, m))
  }

  ghost predicate SoundRule(r: Rule) {
    || IsSlotRule(r)
    || (r.ToOutbound? && (r.inTag == API_TAG || exists n :: r.inTag == InboundTag(n)))
  }

  // A balancer reaches only its own slot's outbounds, or block.
  predicate Confined(idx: nat, b: Balancer) {
    && (forall s :: s in b.selectors ==> SlotOutPrefix(idx) <= s)
    && (SlotOutPrefix(idx) <= b.fallback || b.fallback == "block")
  }

  ghost predicate SoundBalancer(b: Balancer) {
    exists i: nat, m :: b.tag == SlotBalTag(i, m) && Confined(i, b)
  }

  ghost predicate Sound(cfg: Config) {
    && cfg.outbounds != [] && cfg.outbounds[0] == BLOCK
    && (forall o :: o in cfg.outbounds ==> SoundOutbound(o))
    && (forall b :: b in cfg.inbounds ==> SoundInbound(b))
    && (forall r :: r in cfg.routing.rules ==> SoundRule(r))
    && (forall b :: b in cfg.routing.balancers ==> SoundBalancer(b))
  }

  // What the daemon feeds the compiler: slot indices in range, pool members that
  // carry no dialerProxy of their own, no listener on a slot port.
  predicate Fed(inbounds: seq<UserInbound>, slots: seq<Slot>) {
    && (forall s :: s in slots ==> s.index < SLOT_COUNT)
    && (forall s, m :: s in slots && m in s.members && m.outbound.Stored? ==> m.outbound.dialerProxy == "")
    && (forall u :: u in inbounds ==> !SlotPortTaken(u.port))
  }

  lemma EntryFamily(ents: seq<Entry>, slotted: set<string>)
    requires EntryOutbounds(ents, slotted).Ok?
    ensures forall o :: o in EntryOutbounds(ents, slotted).value ==> IsEntryOut(o)
    ensures forall e :: e in ents && e.enabled ==>
              EntryOutbound(e, slotted).Ok? && EntryOutbound(e, slotted).value in EntryOutbounds(ents, slotted).value
    ensures OutTags(EntryOutbounds(ents, slotted).value) == set e | e in ents && e.enabled :: EntryTag(e.name)
  {
    hide EntryOutbound, EntryOutbounds, IsEntryOut;
    EntriesOut(ents, slotted);
    EntryTags(ents, slotted);
  }

  lemma OneEntry(e: Entry, slotted: set<string>)
    ensures EntryOutbound(e, slotted).Ok? ==>
              EntryOutbound(e, slotted).value.tag == EntryTag(e.name) && IsEntryOut(EntryOutbound(e, slotted).value)
  {
    hide EntryTag;
  }

  lemma {:induction false} EntriesOut(ents: seq<Entry>, slotted: set<string>)
    requires EntryOutbounds(ents, slotted).Ok?
    ensures forall o :: o in EntryOutbounds(ents, slotted).value ==> IsEntryOut(o)
    ensures forall e :: e in ents && e.enabled ==>
              EntryOutbound(e, slotted).Ok? && EntryOutbound(e, slotted).value in EntryOutbounds(ents, slotted).value
  {
    if ents != [] {
      hide EntryOutbound, IsEntryOut;
      var e := ents[|ents| - 1];
      EntriesOut(ents[..|ents| - 1], slotted);
      assert ents == ents[..|ents| - 1] + [e];
      OneEntry(e, slotted);
    }
  }

  lemma {:induction false} EntryTags(ents: seq<Entry>, slotted: set<string>)
    requires EntryOutbounds(ents, slotted).Ok?
    ensures OutTags(EntryOutbounds(ents, slotted).value) == set e | e in ents && e.enabled :: EntryTag(e.name)
  {
    if ents != [] {
      hide EntryTag, EntryOutbound, IsEntryOut;
      var e := ents[|ents| - 1];
      EntryTags(ents[..|ents| - 1], slotted);
      assert ents == ents[..|ents| - 1] + [e];
      OneEntry(e, slotted);
      var before, after := EntryOutbounds(ents[..|ents| - 1], slotted).value, EntryOutbounds(ents, slotted).value;
      if e.enabled {
        TagsSnoc(before, EntryOutbound(e, slotted).value);
        assert after == before + [EntryOutbound(e, slotted).value];
      }
    }
  }

  lemma TagsSnoc(obs: seq<Outbound>, ob: Outbound)
    ensures OutTags(obs + [ob]) == OutTags(obs) + {ob.tag}
  {
  }

  lemma {:induction false} IfaceFamily(ins: seq<UserInbound>, have: set<string>)
    ensures forall o :: o in IfaceOutbounds(ins, have) ==> IsIfaceOut(o)
    ensures forall u :: u in ins && TargetsIface(u) ==>
              IfaceTag(ParseTarget(u.target).value.name) in have + OutTags(IfaceOutbounds(ins, have))
  {
    hide ParseTarget, IfaceTag;
    if ins != [] {
      IfaceFamily(ins[..|ins| - 1], have);
      assert ins == ins[..|ins| - 1] + [ins[|ins| - 1]];
      var before, after := IfaceOutbounds(ins[..|ins| - 1], have), IfaceOutbounds(ins, have);
      forall t | t in OutTags(before) ensures t in OutTags(after) {
        var o :| o in before && o.tag == t;
        assert o in after;
      }
      var u := ins[|ins| - 1];
      if TargetsIface(u) && after != before {
        assert after[|after| - 1] in after;
      }
    }
  }

  lemma {:induction false} FrontFamily(ins: seq<UserInbound>, have: set<string>)
    requires FrontOf(ins, have).Ok?
    requires forall u :: u in ins ==> !SlotPortTaken(u.port)
    ensures forall b :: b in FrontOf(ins, have).value.inbounds ==>
              !SlotPortTaken(b.port) && exists n :: b.tag == InboundTag(n)
    ensures forall r :: r in FrontOf(ins, have).value.rules ==>
              r.ToOutbound? && r.outTag in have && exists n :: r.inTag == InboundTag(n)
  {
    hide ParseTarget, OutboundTagFor, InboundTag, BuildInbound, Listening, SlotPortTaken;
    if ins != [] {
      var u := ins[|ins| - 1];
      assert ins == ins[..|ins| - 1] + [u];
      FrontFamily(ins[..|ins| - 1], have);
      var f, g := FrontOf(ins[..|ins| - 1], have).value, FrontOf(ins, have).value;
      if Listening(u) {
        BuiltFamily(u);
        assert g.inbounds == f.inbounds + [BuildInbound(u).value];
        assert g.rules == f.rules + [ToOutbound(InboundTag(u.name), OutboundTagFor(ParseTarget(u.target).value))];
      }
    }
  }

  lemma BuiltFamily(u: UserInbound)
    requires BuildInbound(u).Ok? && !SlotPortTaken(u.port)
    ensures !SlotPortTaken(BuildInbound(u).value.port) && BuildInbound(u).value.tag == InboundTag(u.name)
  {
    hide InboundTag;
  }

  lemma {:induction false} PickedTagsAre(idx: nat, picked: seq<string>, loaded: set<string>)
    ensures forall t :: t in PickedTags(idx, picked, loaded) <==>
              exists k :: k in picked && k in loaded && t == SlotMemberTag(idx, k)
  {
    hide SlotMemberTag;
    if picked != [] {
      PickedTagsAre(idx, picked[..|picked| - 1], loaded);
      assert picked == picked[..|picked| - 1] + [picked[|picked| - 1]];
    }
  }

  lemma BalancerConfined(idx: nat, master: string, pick: MasterPick, ms: seq<Member>)
    ensures Confined(idx, SlotBalancer(idx, master, pick, LoadedKeys(ms), FirstTag(idx, ms)))
  {
    PickedTagsAre(idx, pick.picked, LoadedKeys(ms));
    var picked := PickedTags(idx, pick.picked, LoadedKeys(ms));
    var b := SlotBalancer(idx, master, pick, LoadedKeys(ms), FirstTag(idx, ms));
    forall t | t in picked ensures SlotOutPrefix(idx) <= t {
      var k :| k in pick.picked && k in LoadedKeys(ms) && t == SlotMemberTag(idx, k);
      MemberTagPrefix(idx, k);
    }
    if picked == [] {
      assert SlotOutPrefix(idx) <= SlotOutPrefix(idx);
      if LoadedMembers(ms) != [] {
        MemberTagPrefix(idx, LoadedMembers(ms)[0].key);
      }
    } else {
      assert b.fallback in picked;
      assert forall s :: s in b.selectors ==> s in picked;
    }
  }

  lemma SlotFamily(s: Slot, opts: Options)
    requires s.index < SLOT_COUNT
    requires forall m :: m in s.members && m.outbound.Stored? ==> m.outbound.dialerProxy == ""
    ensures forall o :: o in DialerOutbounds(s, opts) ==> IsDialerOut(o)
    ensures forall o :: o in MemberOutbounds(s.index, s.members) ==> IsMemberOut(o)
    ensures IsSlotIn(SlotInbound(s))
    ensures forall r :: r in SlotRules(s) ==> IsSlotRule(r)
    ensures forall b :: b in SlotBalancers(s) ==> SoundBalancer(b)
  {
    var ls := LoadedMembers(s.members);
    forall o | o in MemberOutbounds(s.index, s.members) ensures IsMemberOut(o) {
      var j :| 0 <= j < |ls| && o == MemberOutbounds(s.index, s.members)[j];
      assert ls[j] in ls;
    }
    forall b | b in SlotBalancers(s) ensures SoundBalancer(b) {
      var j :| 0 <= j < |SlotMasters(s)| && b == SlotBalancers(s)[j];
      BalancerConfined(s.index, SlotMasters(s)[j], PickOf(s, SlotMasters(s)[j]), s.members);
    }
  }

  lemma {:induction false} PoolsFamily(slots: seq<Slot>, opts: Options)
    requires Fed([], slots)
    ensures var p := PoolsOf(slots, opts);
            && (forall o :: o in p.outbounds ==> IsDialerOut(o) || IsMemberOut(o))
            && (forall b :: b in p.inbounds ==> IsSlotIn(b))
            && (forall r :: r in p.rules ==> IsSlotRule(r))
            && (forall b :: b in p.balancers ==> SoundBalancer(b))
  {
    hide DialerOutbounds, MemberOutbounds, SlotInbound, SlotRules, SlotBalancers, IsDialerOut, IsMemberOut, IsSlotIn,
         IsSlotRule, SoundBalancer;
    if slots != [] {
      var s := slots[|slots| - 1];
      assert slots == slots[..|slots| - 1] + [s];
      PoolsFamily(slots[..|slots| - 1], opts);
      SlotFamily(s, opts);
    }
  }

  lemma SortedFed(inbounds: seq<UserInbound>, slots: seq<Slot>)
    requires Fed(inbounds, slots)
    ensures Fed(SortBy(ByInboundName(), inbounds), SortBy(ByIndex(), slots)) && Fed([], SortBy(ByIndex(), slots))
  {
    SameSorted(ByInboundName(), inbounds);
    SameSorted(ByIndex(), slots);
    forall u | u in SortBy(ByInboundName(), inbounds)
      ensures u in inbounds
    {
      assert u in Elems(SortBy(ByInboundName(), inbounds));
    }
    forall s | s in SortBy(ByIndex(), slots) ensures s in slots { assert s in Elems(SortBy(ByIndex(), slots)); }
  }

  // Every compiled config is made of nothing but these families, block first.
  lemma CompiledSound(entries: seq<Entry>, inbounds: seq<UserInbound>, slots: seq<Slot>, opts: Options)
    requires Fed(inbounds, slots) && Compiled(entries, inbounds, slots, opts).Ok?
    ensures Sound(Compiled(entries, inbounds, slots, opts).value)
  {
    hide EntryOutbounds, IfaceOutbounds, FrontOf, PoolsOf, SlotNames, HaveOut;
    hide IsEntryOut, IsIfaceOut, IsDialerOut, IsMemberOut, IsSlotIn, IsSlotRule, SoundBalancer, InboundTag, SlotInTag;
    var ents, ins, sl := SortBy(ByEntryName(), entries), SortBy(ByInboundName(), inbounds), SortBy(ByIndex(), slots);
    SortedFed(inbounds, slots);
    var have := HaveOut(ents);
    EntryFamily(ents, SlotNames(sl));
    IfaceFamily(ins, have);
    FrontFamily(ins, have + OutTags(IfaceOutbounds(ins, have)));
    PoolsFamily(sl, opts);
  }

  // ---- where each part of a config comes from ---------------------------------

  lemma {:induction false} PoolsFrom(slots: seq<Slot>, opts: Options)
    ensures var p := PoolsOf(slots, opts);
            && (forall o :: o in p.outbounds ==>
                 exists s :: s in slots && (o in DialerOutbounds(s, opts) || o in MemberOutbounds(s.index, s.members)))
            && (forall s, o ::
                  s in slots && (o in DialerOutbounds(s, opts) || o in MemberOutbounds(s.index, s.members)) ==>
                    o in p.outbounds)
            && (forall s :: s in slots ==> SlotInbound(s) in p.inbounds)
            && (forall s, r :: s in slots && r in SlotRules(s) ==> r in p.rules)
            && (forall s, b :: s in slots && b in SlotBalancers(s) ==> b in p.balancers)
            && (forall r :: r in p.rules ==> exists s :: s in slots && r in SlotRules(s))
  {
    hide DialerOutbounds, MemberOutbounds, SlotInbound, SlotRules, SlotBalancers;
    if slots != [] {
      var s := slots[|slots| - 1];
      var rest := slots[..|slots| - 1];
      assert slots == rest + [s];
      PoolsFrom(rest, opts);
      var p, q := PoolsOf(rest, opts), PoolsOf(slots, opts);
      forall o | o in q.outbounds
        ensures exists t :: t in slots && (o in DialerOutbounds(t, opts) || o in MemberOutbounds(t.index, t.members))
      {
        if o in p.outbounds {
          var t :| t in rest && (o in DialerOutbounds(t, opts) || o in MemberOutbounds(t.index, t.members));
          assert t in slots;
        } else {
          assert s in slots;
        }
      }
      forall r | r in q.rules ensures exists t :: t in slots && r in SlotRules(t) {
        if r in p.rules {
          var t :| t in rest && r in SlotRules(t);
          assert t in slots;
        } else {
          assert s in slots;
        }
      }
    }
  }

  lemma SortedSame(entries: seq<Entry>, inbounds: seq<UserInbound>, slots: seq<Slot>)
    ensures forall e :: e in SortBy(ByEntryName(), entries) <==> e in entries
    ensures forall u :: u in SortBy(ByInboundName(), inbounds) <==> u in inbounds
    ensures forall s :: s in SortBy(ByIndex(), slots) <==> s in slots
    ensures SlotNames(SortBy(ByIndex(), slots)) == SlotNames(slots)
  {
    SameSorted(ByEntryName(), entries);
    SameSorted(ByInboundName(), inbounds);
    SameSorted(ByIndex(), slots);
    forall e ensures e in SortBy(ByEntryName(), entries) <==> e in entries {
      assert e in Elems(SortBy(ByEntryName(), entries)) <==> e in Elems(entries);
    }
    forall u ensures u in SortBy(ByInboundName(), inbounds) <==> u in inbounds {
      assert u in Elems(SortBy(ByInboundName(), inbounds)) <==> u in Elems(inbounds);
    }
    forall s ensures s in SortBy(ByIndex(), slots) <==> s in slots {
      assert s in Elems(SortBy(ByIndex(), slots)) <==> s in Elems(slots);
    }
  }

  // Every rule of a compiled config points at something that is in it (the api
  // rule at the api service itself).
  lemma RulesResolve(entries: seq<Entry>, inbounds: seq<UserInbound>, slots: seq<Slot>, opts: Options, r: Rule)
    requires Fed(inbounds, slots) && Compiled(entries, inbounds, slots, opts).Ok?
    requires r in Compiled(entries, inbounds, slots, opts).value.routing.rules
    ensures var cfg := Compiled(entries, inbounds, slots, opts).value;
            match r
            case ToOutbound(inTag, outTag) =>
              outTag in OutTags(cfg.outbounds) || (inTag == API_TAG && outTag == API_TAG)
            case ToBalancer(_, _, balTag) => BalancerFor(cfg.routing.balancers, balTag).Some?
  {
    hide EntryOutbounds, IfaceOutbounds, FrontOf, PoolsOf, SlotNames, SlotBalancer, SlotMemberTag;
    var ents, ins, sl := SortBy(ByEntryName(), entries), SortBy(ByInboundName(), inbounds), SortBy(ByIndex(), slots);
    var cfg := Compiled(entries, inbounds, slots, opts).value;
    SortedFed(inbounds, slots);
    var have := HaveOut(ents);
    var obs, ifaces := EntryOutbounds(ents, SlotNames(sl)).value, IfaceOutbounds(ins, have);
    EntryFamily(ents, SlotNames(sl));
    FrontFamily(ins, have + OutTags(ifaces));
    PoolsFrom(sl, opts);
    if r in FrontOf(ins, have + OutTags(ifaces)).value.rules {
      HaveInConfig(r.outTag, obs, ifaces, PoolsOf(sl, opts).outbounds, ents);
    } else if r in PoolsOf(sl, opts).rules {
      var s :| s in sl && r in SlotRules(s);
      var j :| 0 <= j < |SlotMasters(s)| && r == SlotRules(s)[j];
      assert SlotBalancers(s)[j] in SlotBalancers(s);
      assert SlotBalancers(s)[j] in cfg.routing.balancers;
      assert SlotBalancers(s)[j].tag == r.balTag by { BalancerTag(s, j); }
    }
  }

  lemma BalancerTag(s: Slot, j: nat)
    requires j < |SlotMasters(s)|
    ensures SlotBalancers(s)[j].tag == SlotBalTag(s.index, SlotMasters(s)[j])
  {
  }

  lemma HaveInConfig(tag: string, obs: seq<Outbound>, ifaces: seq<Outbound>, pools: seq<Outbound>, ents: seq<Entry>)
    requires OutTags(obs) == set e | e in ents && e.enabled :: EntryTag(e.name)
    requires tag in HaveOut(ents) + OutTags(ifaces)
    ensures tag in OutTags([BLOCK, DIRECT] + obs + ifaces + pools)
  {
    var all := [BLOCK, DIRECT] + obs + ifaces + pools;
    assert all[0] in all && all[1] in all;
    if tag in OutTags(obs) {
      var o :| o in obs && o.tag == tag;
      assert o in all;
    } else if tag in OutTags(ifaces) {
      var o :| o in ifaces && o.tag == tag;
      assert o in all;
    }
  }

  // ---- every master fails closed ---------------------------------------------------

  // Master m's hop in a config: its dialer outbound logs into slot idx as m, the
  // slot knows that login, and the rule in force for it leads to m's own
  // balancer, which is confined to that slot.
  ghost predicate Hops(cfg: Config, idx: nat, m: string, opts: Options) {
    && DialerOutbound(idx, m, opts) in cfg.outbounds
    && (exists b :: b in cfg.inbounds && b.tag == SlotInTag(idx) && b.port == SlotPort(idx)
                    && Client(DialerId(m), "", "", DialerEmail(m)) in b.clients)
    && RuleFor(cfg.routing.rules, SlotInTag(idx), DialerEmail(m)) ==
       Some(ToBalancer(SlotInTag(idx), DialerEmail(m), SlotBalTag(idx, m)))
    && BalancerFor(cfg.routing.balancers, SlotBalTag(idx, m)).Some?
    && Confined(idx, BalancerFor(cfg.routing.balancers, SlotBalTag(idx, m)).value)
  }

  predicate DistinctIndices(slots: seq<Slot>) {
    forall t, u :: t in slots && u in slots && t.index == u.index ==> t == u
  }

  // The balancer of a slot's master catches loaded members of that slot only, and
  // falls back to one of them, or to block.
  ghost predicate ReachesOwn(cfg: Config, s: Slot, m: string) {
    var b := BalancerFor(cfg.routing.balancers, SlotBalTag(s.index, m));
    && b.Some?
    && (forall o :: o in cfg.outbounds && Caught(b.value, o.tag) ==> o in MemberOutbounds(s.index, s.members))
    && FallsBackToOwn(s, b.value)
  }

  predicate FallsBackToOwn(s: Slot, b: Balancer) {
    b.fallback == "block" || exists o :: o in MemberOutbounds(s.index, s.members) && o.tag == b.fallback
  }

  lemma SlotRuleInForce(cfg: Config, idx: nat, m: string)
    requires Sound(cfg)
    requires ToBalancer(SlotInTag(idx), DialerEmail(m), SlotBalTag(idx, m)) in cfg.routing.rules
    ensures RuleFor(cfg.routing.rules, SlotInTag(idx), DialerEmail(m)) ==
            Some(ToBalancer(SlotInTag(idx), DialerEmail(m), SlotBalTag(idx, m)))
  {
    hide SlotInTag, SlotBalTag, DialerEmail;
    var own := ToBalancer(SlotInTag(idx), DialerEmail(m), SlotBalTag(idx, m));
    assert Matches(own, SlotInTag(idx), DialerEmail(m));
    var r := RuleFor(cfg.routing.rules, SlotInTag(idx), DialerEmail(m)).value;
    SlotRuleIs(r, idx, m);
  }

  lemma SlotRuleIs(r: Rule, idx: nat, m: string)
    requires SoundRule(r) && Matches(r, SlotInTag(idx), DialerEmail(m))
    ensures r == ToBalancer(SlotInTag(idx), DialerEmail(m), SlotBalTag(idx, m))
  {
    if IsSlotRule(r) {
      var i: nat, n :| r == ToBalancer(SlotInTag(i), DialerEmail(n), SlotBalTag(i, n));
      SlotInTagInjective(i, idx);
      SameEmailSameKey(n, m);
    } else {
      TagFamilies("", "", idx, "");
      var n :| r.inTag == API_TAG || r.inTag == InboundTag(n);
      TagFamilies(n, "", idx, "");
      assert false;
    }
  }

  lemma SameEmailSameKey(m: string, n: string)
    requires DialerEmail(m) == DialerEmail(n)
    ensures SanitizeKey(m) == SanitizeKey(n)
  {
    assert DialerEmail(m)[7..] == SanitizeKey(m) && DialerEmail(n)[7..] == SanitizeKey(n);
  }

  lemma BalancerIsConfined(b: Balancer, idx: nat, m: string)
    requires SoundBalancer(b) && b.tag == SlotBalTag(idx, m)
    ensures Confined(idx, b)
  {
    var i: nat, n :| b.tag == SlotBalTag(i, n) && Confined(i, b);
    SlotBalTagInjective(i, n, idx, m);
  }

  // Every enabled master of a compiled config is a blackhole, or dials block, or
  // dials its own hop into its own slot, whose balancer for it reaches nothing but
  // that slot's loaded members, or block.
  lemma MasterFailsClosed(entries: seq<Entry>, inbounds: seq<UserInbound>, slots: seq<Slot>, opts: Options, e: Entry)
    requires Fed(inbounds, slots) && Compiled(entries, inbounds, slots, opts).Ok?
    requires e in entries && e.enabled && IsMaster(e)
    ensures var cfg := Compiled(entries, inbounds, slots, opts).value;
            exists o :: o in cfg.outbounds && o.tag == EntryTag(e.name) &&
              if !MasterAllowed(e.outbound) then o.protocol == "blackhole" && o.dialer == ""
              else if e.name in SlotNames(slots) then
                && o.dialer == DialerTag(e.name)
                && exists s ::
                  && s in slots && e.name in SlotMasters(s) && Hops(cfg, s.index, e.name, opts)
                  && (DistinctIndices(slots) ==> ReachesOwn(cfg, s, e.name))
              else o.dialer == "block"
  {
    hide EntryOutbounds, IfaceOutbounds, FrontOf, PoolsOf, SlotNames, Sound, Hops, ReachesOwn;
    var ents, sl := SortBy(ByEntryName(), entries), SortBy(ByIndex(), slots);
    var cfg := Compiled(entries, inbounds, slots, opts).value;
    SortedSame(entries, inbounds, slots);
    EntryFamily(ents, SlotNames(sl));
    var o := EntryOutbound(e, SlotNames(sl)).value;
    assert o in cfg.outbounds;
    if MasterAllowed(e.outbound) && e.name in SlotNames(slots) {
      SlotNamed(slots, e.name);
      var s :| s in slots && e.name in SlotMasters(s);
      SlotHops(entries, inbounds, slots, opts, s, e.name);
      if DistinctIndices(slots) { MasterReachesOwn(entries, inbounds, slots, opts, s, e.name); }
    }
  }

  lemma SlotNamed(slots: seq<Slot>, name: string)
    requires name in SlotNames(slots)
    ensures exists s :: s in slots && name in SlotMasters(s)
  {
  }

  lemma SlotHops(entries: seq<Entry>, inbounds: seq<UserInbound>, slots: seq<Slot>, opts: Options, s: Slot, m: string)
    requires Fed(inbounds, slots) && Compiled(entries, inbounds, slots, opts).Ok?
    requires s in slots && m in SlotMasters(s)
    ensures Hops(Compiled(entries, inbounds, slots, opts).value, s.index, m, opts)
  {
    hide EntryOutbounds, IfaceOutbounds, FrontOf, PoolsOf, SlotNames, Sound, SlotInTag, SlotBalTag, DialerEmail,
         Confined;
    var sl := SortBy(ByIndex(), slots);
    var cfg := Compiled(entries, inbounds, slots, opts).value;
    SortedSame(entries, inbounds, slots);
    PoolsFrom(sl, opts);
    CompiledSound(entries, inbounds, slots, opts);
    var j :| 0 <= j < |SlotMasters(s)| && SlotMasters(s)[j] == m;
    assert DialerOutbounds(s, opts)[j] in DialerOutbounds(s, opts);
    assert SlotInbound(s).clients[j] in SlotInbound(s).clients && SlotInbound(s) in cfg.inbounds;
    assert SlotRules(s)[j] in SlotRules(s);
    SlotRuleInForce(cfg, s.index, m);
    BalancerTag(s, j);
    assert SlotBalancers(s)[j] in SlotBalancers(s) && SlotBalancers(s)[j] in cfg.routing.balancers;
    BalancersSound(cfg, s.index, m);
  }

  lemma BalancersSound(cfg: Config, idx: nat, m: string)
    requires Sound(cfg) && BalancerFor(cfg.routing.balancers, SlotBalTag(idx, m)).Some?
    ensures Confined(idx, BalancerFor(cfg.routing.balancers, SlotBalTag(idx, m)).value)
  {
    BalancerIsConfined(BalancerFor(cfg.routing.balancers, SlotBalTag(idx, m)).value, idx, m);
  }

  // A slot's prefix catches exactly the loaded members of that slot: nothing
  // else in the config, and no other slot, whatever its index starts with.
  lemma PrefixCatchesOwnMembers(entries: seq<Entry>, inbounds: seq<UserInbound>, slots: seq<Slot>, opts: Options,
                                s: Slot, o: Outbound)
    requires Fed(inbounds, slots) && Compiled(entries, inbounds, slots, opts).Ok?
    requires DistinctIndices(slots)
    requires s in slots && o in Compiled(entries, inbounds, slots, opts).value.outbounds
    ensures SlotOutPrefix(s.index) <= o.tag <==> o in MemberOutbounds(s.index, s.members)
  {
    hide EntryOutbounds, IfaceOutbounds, FrontOf, PoolsOf, SlotNames, SlotMemberTag, SlotOutPrefix;
    var ents, ins, sl := SortBy(ByEntryName(), entries), SortBy(ByInboundName(), inbounds), SortBy(ByIndex(), slots);
    SortedSame(entries, inbounds, slots);
    SortedFed(inbounds, slots);
    EntryFamily(ents, SlotNames(sl));
    IfaceFamily(ins, HaveOut(ents));
    PoolsFrom(sl, opts);
    if o in MemberOutbounds(s.index, s.members) { MemberTagged(s, o); }
    if o in PoolsOf(sl, opts).outbounds {
      var t :| t in sl && (o in DialerOutbounds(t, opts) || o in MemberOutbounds(t.index, t.members));
      if o in DialerOutbounds(t, opts) {
        TagFamilies(SlotMasterOf(t, opts, o), "", s.index, o.tag);
        if o in MemberOutbounds(s.index, s.members) { assert false; }
      } else {
        MemberTagged(t, o);
        if SlotOutPrefix(s.index) <= o.tag { OnePrefix(s.index, t.index, o.tag); }
      }
    } else {
      OutsidePools(o, s.index);
    }
  }

  lemma MasterReachesOwn(entries: seq<Entry>, inbounds: seq<UserInbound>, slots: seq<Slot>, opts: Options, s: Slot,
                         m: string)
    requires Fed(inbounds, slots) && Compiled(entries, inbounds, slots, opts).Ok? && DistinctIndices(slots)
    requires s in slots && m in SlotMasters(s)
    ensures ReachesOwn(Compiled(entries, inbounds, slots, opts).value, s, m)
  {
    hide EntryOutbounds, IfaceOutbounds, FrontOf, PoolsOf, SlotNames, Sound, SlotBalTag, SlotOutPrefix, SlotMasters,
         MemberOutbounds;
    hide FallsBackToOwn, Hops, SlotBalancers, DistinctIndices, Confined;
    var sl := SortBy(ByIndex(), slots);
    var cfg := Compiled(entries, inbounds, slots, opts).value;
    SlotHops(entries, inbounds, slots, opts, s, m);
    assert Hops(cfg, s.index, m, opts);
    HopsBalancer(cfg, s.index, m, opts);
    var b := BalancerFor(cfg.routing.balancers, SlotBalTag(s.index, m)).value;
    BalancersFrom(sl, opts);
    var t :| t in sl && b in SlotBalancers(t);
    SortedSame(entries, inbounds, slots);
    var n := BalancerOwner(t, b);
    SlotBalTagInjective(t.index, n, s.index, m);
    assert t == s by { SameIndexSame(slots, s, t); }
    forall o | o in cfg.outbounds && Caught(b, o.tag) ensures o in MemberOutbounds(s.index, s.members) {
      CaughtPrefixed(s.index, b, o.tag);
      PrefixCatchesOwnMembers(entries, inbounds, slots, opts, s, o);
    }
  }

  lemma SameIndexSame(slots: seq<Slot>, s: Slot, t: Slot)
    requires DistinctIndices(slots) && s in slots && t in slots && s.index == t.index
    ensures s == t
  {
  }

  lemma HopsBalancer(cfg: Config, idx: nat, m: string, opts: Options)
    requires Hops(cfg, idx, m, opts)
    ensures BalancerFor(cfg.routing.balancers, SlotBalTag(idx, m)).Some?
    ensures Confined(idx, BalancerFor(cfg.routing.balancers, SlotBalTag(idx, m)).value)
  {
  }

  lemma CaughtPrefixed(idx: nat, b: Balancer, tag: string)
    requires Confined(idx, b) && Caught(b, tag)
    ensures SlotOutPrefix(idx) <= tag
  {
    hide SlotOutPrefix;
    var sel :| sel in b.selectors && sel <= tag;
  }

  lemma {:induction false} BalancersFrom(slots: seq<Slot>, opts: Options)
    ensures forall b :: b in PoolsOf(slots, opts).balancers ==> exists s :: s in slots && b in SlotBalancers(s)
  {
    hide DialerOutbounds, MemberOutbounds, SlotInbound, SlotRules, SlotBalancers;
    if slots != [] {
      var s, rest := slots[|slots| - 1], slots[..|slots| - 1];
      assert slots == rest + [s];
      BalancersFrom(rest, opts);
      forall b | b in PoolsOf(slots, opts).balancers ensures exists t :: t in slots && b in SlotBalancers(t) {
        if b in PoolsOf(rest, opts).balancers {
          var t :| t in rest && b in SlotBalancers(t);
          assert t in slots;
        } else {
          assert s in slots;
        }
      }
    }
  }

  // Each of a slot's balancers is one of its masters', and falls back to one of
  // its loaded members, or to block.
  lemma BalancerOwner(s: Slot, b: Balancer) returns (m: string)
    requires b in SlotBalancers(s)
    ensures b.tag == SlotBalTag(s.index, m) && FallsBackToOwn(s, b)
  {
    hide SlotBalTag;
    var j :| 0 <= j < |SlotMasters(s)| && b == SlotBalancers(s)[j];
    m := SlotMasters(s)[j];
    FallbackLoaded(s, m);
  }

  lemma FallbackLoaded(s: Slot, m: string)
    ensures var first := FirstTag(s.index, s.members);
            FallsBackToOwn(s, SlotBalancer(s.index, m, PickOf(s, m), LoadedKeys(s.members), first))
  {
    hide SlotBalTag, SlotMemberTag, FallsBackToOwn;
    var pick, keys := PickOf(s, m), LoadedKeys(s.members);
    var b := SlotBalancer(s.index, m, pick, keys, FirstTag(s.index, s.members));
    PickedTagsAre(s.index, pick.picked, keys);
    if PickedTags(s.index, pick.picked, keys) != [] {
      assert b.fallback in PickedTags(s.index, pick.picked, keys);
      var k :| k in pick.picked && k in keys && b.fallback == SlotMemberTag(s.index, k);
      LoadedKeyTagged(s, k);
      OwnFallback(s, b);
    } else if LoadedMembers(s.members) != [] {
      LoadedKeyTagged(s, LoadedMembers(s.members)[0].key);
      assert b.fallback == "block" || b.fallback == SlotMemberTag(s.index, LoadedMembers(s.members)[0].key);
      OwnFallback(s, b);
    } else {
      assert b.fallback == "block";
      OwnFallback(s, b);
    }
  }

  lemma OwnFallback(s: Slot, b: Balancer)
    requires b.fallback == "block" || exists o :: o in MemberOutbounds(s.index, s.members) && o.tag == b.fallback
    ensures FallsBackToOwn(s, b)
  {
  }

  lemma LoadedKeyTagged(s: Slot, k: string)
    requires k in LoadedKeys(s.members)
    ensures exists o :: o in MemberOutbounds(s.index, s.members) && o.tag == SlotMemberTag(s.index, k)
  {
    hide SlotMemberTag;
    var m :| m in LoadedMembers(s.members) && m.key == k;
    var j :| 0 <= j < |LoadedMembers(s.members)| && LoadedMembers(s.members)[j] == m;
    assert MemberOutbounds(s.index, s.members)[j] in MemberOutbounds(s.index, s.members);
  }

  function SlotMasterOf(t: Slot, opts: Options, o: Outbound): (m: string)
    requires o in DialerOutbounds(t, opts)
    ensures o.tag == DialerTag(m)
  {
    o.body.user.master
  }

  lemma MemberTagged(s: Slot, o: Outbound)
    requires o in MemberOutbounds(s.index, s.members)
    ensures SlotOutPrefix(s.index) <= o.tag
  {
    hide SlotOutPrefix;
    var j :| 0 <= j < |LoadedMembers(s.members)| && o == MemberOutbounds(s.index, s.members)[j];
    assert LoadedMembers(s.members)[j] in LoadedMembers(s.members);
    MemberTagPrefix(s.index, LoadedMembers(s.members)[j].key);
  }

  lemma OnePrefix(i: nat, j: nat, tag: string)
    requires SlotOutPrefix(i) <= tag && SlotOutPrefix(j) <= tag
    ensures i == j
  {
    assert tag == SlotOutPrefix(j) + tag[|SlotOutPrefix(j)|..];
    SlotPrefixSeparates(i, j, tag[|SlotOutPrefix(j)|..]);
  }

  lemma OutsidePools(o: Outbound, idx: nat)
    requires o == BLOCK || o == DIRECT || IsEntryOut(o) || IsIfaceOut(o)
    ensures !(SlotOutPrefix(idx) <= o.tag)
  {
    if IsEntryOut(o) {
      var n :| o.tag == EntryTag(n);
      TagFamilies(n, "", idx, o.tag);
    } else if IsIfaceOut(o) {
      var n :| o == IfaceOutbound(n);
      TagFamilies(n, "", idx, o.tag);
    } else {
      TagFamilies("", "", idx, o.tag);
    }
  }
}
