// The config compiler (core/xray/config.go): from entries, inbounds and dialer
// slots to one config. The functions say what each part of the config is; the
// methods build it the way the compiler does.
module Generate {
  import opened Wrappers
  import opened Text
  import opened Sorting
  import opened Tags
  import opened XrayConfig

  datatype Options = Options(fixed: Fixed, dialerSource: bool)

  // ---- entries ---------------------------------------------------------------

  // The masters that have a slot.
  function SlotNames(slots: seq<Slot>): set<string> {
    set s, m | s in slots && m in SlotMasters(s) :: m
  }

  function EntryOutbound(e: Entry, slotted: set<string>): Result<Outbound, string> {
    var tag := EntryTag(e.name);
    if e.outbound.BadJson? then Err("entry: bad outbound json")
    else
      var ob := Outbound(tag, e.outbound.protocol, e.outbound.dialerProxy,
                         Settings(e.outbound.text, e.mux && e.outbound.muxable));
      if IsMaster(e) && !MasterAllowed(e.outbound) then Ok(Outbound(tag, "blackhole", "", Settings("", false)))
      else if e.name in slotted then Ok(ob.(dialer := DialerTag(e.name)))
      else if IsMaster(e) then Ok(ob.(dialer := "block"))
      else Ok(ob)
  }

  function EntryOutbounds(ents: seq<Entry>, slotted: set<string>): Result<seq<Outbound>, string> {
    if ents == [] then Ok([])
    else
      var e := ents[|ents| - 1];
      match EntryOutbounds(ents[..|ents| - 1], slotted)
      case Err(msg) => Err(msg)
      case Ok(obs) =>
        if !e.enabled then Ok(obs)
        else match EntryOutbound(e, slotted)
          case Err(msg) => Err(msg)
          case Ok(ob) => Ok(obs + [ob])
  }

  // ---- interface outbounds, inbounds and their rules ---------------------------

  predicate TargetsIface(u: UserInbound) {
    u.enabled && ParseTarget(u.target).Ok? && ParseTarget(u.target).value.ToIface?
  }

  function IfaceOutbound(name: string): Outbound {
    Outbound(IfaceTag(name), "freedom", "", Settings(name, false))
  }

  function IfaceOutbounds(ins: seq<UserInbound>, have: set<string>): seq<Outbound> {
    if ins == [] then []
    else
      var before := IfaceOutbounds(ins[..|ins| - 1], have);
      var u := ins[|ins| - 1];
      if TargetsIface(u) && IfaceTag(ParseTarget(u.target).value.name) !in have + OutTags(before)
      then before + [IfaceOutbound(ParseTarget(u.target).value.name)]
      else before
  }

  predicate Listening(u: UserInbound) {
    u.enabled && (u.port != 0 || u.unix)
  }

  function BuildInbound(u: UserInbound): Result<Inbound, string> {
    if u.protocol !in {"socks", "vless", "vmess", "trojan", "hysteria"} then Err("unsupported inbound protocol")
    else if u.protocol != "socks" && !u.streamOk then Err("inbound stream incomplete")
    else Ok(Inbound(InboundTag(u.name), u.protocol, if u.unix then 0 else u.port,
                    if u.protocol == "socks" then [] else u.clients,
                    if u.protocol == "socks" && u.socksUser != "" then [Account(u.socksUser, u.password)] else [],
                    u.text))
  }

  datatype Front = Front(inbounds: seq<Inbound>, rules: seq<Rule>)

  function FrontOf(ins: seq<UserInbound>, have: set<string>): Result<Front, string> {
    if ins == [] then Ok(Front([], []))
    else
      var u := ins[|ins| - 1];
      match FrontOf(ins[..|ins| - 1], have)
      case Err(msg) => Err(msg)
      case Ok(f) =>
        if !Listening(u) then Ok(f)
        else if BuildInbound(u).Err? then Err(BuildInbound(u).error)
        else if ParseTarget(u.target).Err? then Err(ParseTarget(u.target).error)
        else if OutboundTagFor(ParseTarget(u.target).value) !in have then Err("no such outbound")
        else Ok(Front(f.inbounds + [BuildInbound(u).value],
                      f.rules + [ToOutbound(InboundTag(u.name), OutboundTagFor(ParseTarget(u.target).value))]))
  }

  // ---- slots -----------------------------------------------------------------------

  function SlotInbound(s: Slot): Inbound {
    var ms := SlotMasters(s);
    Inbound(SlotInTag(s.index), "vless", SlotPort(s.index),
            seq(|ms|, i requires 0 <= i < |ms| => Client(DialerId(ms[i]), "", "", DialerEmail(ms[i]))), [], "")
  }

  function DialerOutbound(idx: nat, master: string, opts: Options): Outbound {
    Outbound(DialerTag(master), "vless", "",
             Hop(SlotPort(idx), DialerId(master), if opts.dialerSource then master else ""))
  }

  function DialerOutbounds(s: Slot, opts: Options): seq<Outbound> {
    var ms := SlotMasters(s);
    seq(|ms|, i requires 0 <= i < |ms| => DialerOutbound(s.index, ms[i], opts))
  }

  function MemberOutbound(idx: nat, m: Member): Outbound
    requires m.outbound.Stored?
  {
    Outbound(SlotMemberTag(idx, m.key), m.outbound.protocol, m.outbound.dialerProxy, Settings(m.outbound.text, false))
  }

  // The members loaded into a slot; one that does not tunnel is left out.
  function LoadedMembers(ms: seq<Member>): (r: seq<Member>)
    ensures forall m :: m in r <==> m in ms && MemberAllowed(m.outbound)
  {
    if ms == [] then []
    else
      var before := LoadedMembers(ms[..|ms| - 1]);
      assert ms == ms[..|ms| - 1] + [ms[|ms| - 1]];
      if MemberAllowed(ms[|ms| - 1].outbound) then before + [ms[|ms| - 1]] else before
  }

  function MemberOutbounds(idx: nat, ms: seq<Member>): seq<Outbound> {
    var ls := LoadedMembers(ms);
    seq(|ls|, i requires 0 <= i < |ls| => assert ls[i] in ls; MemberOutbound(idx, ls[i]))
  }

  function LoadedKeys(ms: seq<Member>): set<string> {
    set m | m in LoadedMembers(ms) :: m.key
  }

  function FirstTag(idx: nat, ms: seq<Member>): string {
    if LoadedMembers(ms) == [] then "" else SlotMemberTag(idx, LoadedMembers(ms)[0].key)
  }

  function PickedTags(idx: nat, picked: seq<string>, loaded: set<string>): seq<string> {
    if picked == [] then []
    else PickedTags(idx, picked[..|picked| - 1], loaded) +
         if picked[|picked| - 1] in loaded then [SlotMemberTag(idx, picked[|picked| - 1])] else []
  }

  function SlotBalancer(idx: nat, master: string, pick: MasterPick, loaded: set<string>, first: string): Balancer {
    var picked := PickedTags(idx, pick.picked, loaded);
    if picked == [] then
      Balancer(SlotBalTag(idx, master), [SlotOutPrefix(idx)], true, if first == "" then "block" else first)
    else
      var active := ActiveCount(pick.active, picked);
      Balancer(SlotBalTag(idx, master), picked[..active], false,
               if |picked| > active then picked[active] else picked[0])
  }

  function SlotBalancers(s: Slot): seq<Balancer> {
    var ms := SlotMasters(s);
    seq(|ms|, i requires 0 <= i < |ms| =>
      SlotBalancer(s.index, ms[i], PickOf(s, ms[i]), LoadedKeys(s.members), FirstTag(s.index, s.members)))
  }

  function SlotRules(s: Slot): seq<Rule> {
    var ms := SlotMasters(s);
    seq(|ms|, i requires 0 <= i < |ms| =>
      ToBalancer(SlotInTag(s.index), DialerEmail(ms[i]), SlotBalTag(s.index, ms[i])))
  }

  datatype Pools = Pools(inbounds: seq<Inbound>, outbounds: seq<Outbound>, rules: seq<Rule>, balancers: seq<Balancer>)

  function PoolsOf(slots: seq<Slot>, opts: Options): Pools {
    if slots == [] then Pools([], [], [], [])
    else
      var p := PoolsOf(slots[..|slots| - 1], opts);
      var s := slots[|slots| - 1];
      Pools(p.inbounds + [SlotInbound(s)],
            p.outbounds + DialerOutbounds(s, opts) + MemberOutbounds(s.index, s.members),
            p.rules + SlotRules(s),
            p.balancers + SlotBalancers(s))
  }

  // ---- the whole config ---------------------------------------------------------------

  function ByEntryName(): (Entry, Entry) -> bool { (a: Entry, b: Entry) => Before(a.name, b.name) }
  function ByInboundName(): (UserInbound, UserInbound) -> bool {
    (a: UserInbound, b: UserInbound) => Before(a.name, b.name)
  }
  function ByIndex(): (Slot, Slot) -> bool { (a: Slot, b: Slot) => a.index < b.index }

  const API_INBOUND := Inbound(API_TAG, "dokodemo-door", API_PORT, [], [], "")

  function HaveOut(ents: seq<Entry>): set<string> {
    {"direct", "block"} + set e | e in ents && e.enabled :: EntryTag(e.name)
  }

  function Compiled(entries: seq<Entry>, inbounds: seq<UserInbound>, slots: seq<Slot>, opts: Options)
    : Result<Config, string>
  {
    var ents, ins, sl := SortBy(ByEntryName(), entries), SortBy(ByInboundName(), inbounds), SortBy(ByIndex(), slots);
    match EntryOutbounds(ents, SlotNames(sl))
    case Err(msg) => Err(msg)
    case Ok(obs) =>
      var ifaces := IfaceOutbounds(ins, HaveOut(ents));
      match FrontOf(ins, HaveOut(ents) + OutTags(ifaces))
      case Err(msg) => Err(msg)
      case Ok(front) =>
        var p := PoolsOf(sl, opts);
        Ok(Config(opts.fixed,
                  front.inbounds + [API_INBOUND] + p.inbounds,
                  [BLOCK, DIRECT] + obs + ifaces + p.outbounds,
                  Routing([ToOutbound(API_TAG, API_TAG)] + front.rules + p.rules, p.balancers)))
  }

  // The whole config of inputs that come sorted and target no interface, from its parts.
  lemma CompiledOf(entries: seq<Entry>, inbounds: seq<UserInbound>, slots: seq<Slot>, opts: Options,
                   obs: seq<Outbound>, front: Front)
    requires SortBy(ByEntryName(), entries) == entries && SortBy(ByInboundName(), inbounds) == inbounds
    requires SortBy(ByIndex(), slots) == slots
    requires EntryOutbounds(entries, SlotNames(slots)) == Ok(obs) && IfaceOutbounds(inbounds, HaveOut(entries)) == []
    requires FrontOf(inbounds, HaveOut(entries)) == Ok(front)
    ensures var p := PoolsOf(slots, opts);
            Compiled(entries, inbounds, slots, opts) ==
            Ok(Config(opts.fixed, front.inbounds + [API_INBOUND] + p.inbounds, [BLOCK, DIRECT] + obs + p.outbounds,
                      Routing([ToOutbound(API_TAG, API_TAG)] + front.rules + p.rules, p.balancers)))
  {
    hide EntryOutbounds, IfaceOutbounds, FrontOf, PoolsOf, SlotNames, SortBy, HaveOut;
    assert HaveOut(entries) + OutTags([]) == HaveOut(entries);
    assert [BLOCK, DIRECT] + obs + [] == [BLOCK, DIRECT] + obs;
  }

  // What one more listening inbound adds.
  lemma FrontSnoc(ins: seq<UserInbound>, u: UserInbound, have: set<string>)
    requires FrontOf(ins, have).Ok?
    ensures !Listening(u) ==> FrontOf(ins + [u], have) == FrontOf(ins, have)
    ensures Listening(u) && BuildInbound(u).Ok? && ParseTarget(u.target).Ok? &&
            OutboundTagFor(ParseTarget(u.target).value) in have ==>
              var f := FrontOf(ins, have).value;
              FrontOf(ins + [u], have) ==
              Ok(Front(f.inbounds + [BuildInbound(u).value],
                       f.rules + [ToOutbound(InboundTag(u.name), OutboundTagFor(ParseTarget(u.target).value))]))
  {
    hide InboundTag, BuildInbound, ParseTarget, OutboundTagFor;
    var all := ins + [u];
    assert all[..|all| - 1] == ins && all[|all| - 1] == u;
  }

  // Whether an inbound can be emitted: it listens, is complete, and its target is there.
  predicate Emitted(u: UserInbound, have: set<string>) {
    Listening(u) && BuildInbound(u).Ok? && ParseTarget(u.target).Ok? &&
        OutboundTagFor(ParseTarget(u.target).value) in have
  }

  function RuleOf(u: UserInbound): Rule
    requires ParseTarget(u.target).Ok?
  {
    ToOutbound(InboundTag(u.name), OutboundTagFor(ParseTarget(u.target).value))
  }

  lemma FrontTwo(u: UserInbound, v: UserInbound, have: set<string>)
    requires Emitted(v, have) && (Listening(u) ==> Emitted(u, have))
    ensures FrontOf([u, v], have) ==
            if Listening(u) then
              Ok(Front([BuildInbound(u).value, BuildInbound(v).value], [RuleOf(u), RuleOf(v)]))
            else Ok(Front([BuildInbound(v).value], [RuleOf(v)]))
  {
    hide InboundTag, BuildInbound, ParseTarget, OutboundTagFor, Listening;
    FrontSnoc([], u, have);
    FrontSnoc([u], v, have);
    hide FrontOf;
    assert [] + [u] == [u] && [u] + [v] == [u, v];
    var b, c := BuildInbound(u), BuildInbound(v).value;
    assert [] + [c] == [c] && [] + [RuleOf(v)] == [RuleOf(v)];
    if Listening(u) {
      assert [] + [b.value] == [b.value] && [b.value] + [c] == [b.value, c];
      assert [] + [RuleOf(u)] == [RuleOf(u)] && [RuleOf(u)] + [RuleOf(v)] == [RuleOf(u), RuleOf(v)];
    }
  }

  lemma {:induction false} NoIfaces(ins: seq<UserInbound>, have: set<string>)
    requires forall u :: u in ins ==> !TargetsIface(u)
    ensures IfaceOutbounds(ins, have) == []
  {
    hide TargetsIface;
    if ins != [] {
      assert ins[|ins| - 1] in ins;
      forall u | u in ins[..|ins| - 1] ensures u in ins { }
      NoIfaces(ins[..|ins| - 1], have);
    }
  }

  // ---- the order inputs come in ----------------------------------------------------------

  predicate DistinctNames(entries: seq<Entry>, inbounds: seq<UserInbound>, slots: seq<Slot>) {
    && (forall i, j :: 0 <= i < j < |entries| ==> entries[i].name != entries[j].name)
    && (forall i, j :: 0 <= i < j < |inbounds| ==> inbounds[i].name != inbounds[j].name)
    && (forall i, j :: 0 <= i < j < |slots| ==> slots[i].index != slots[j].index)
  }

  // However entries, inbounds and slots are ordered, the config is the same.
  lemma OrderIrrelevant(
      entries: seq<Entry>, inbounds: seq<UserInbound>, slots: seq<Slot>, opts: Options,
      entries': seq<Entry>, inbounds': seq<UserInbound>, slots': seq<Slot>)
    requires DistinctNames(entries, inbounds, slots)
    requires multiset(entries) == multiset(entries') && multiset(inbounds) == multiset(inbounds')
    requires multiset(slots) == multiset(slots')
    ensures Compiled(entries, inbounds, slots, opts) == Compiled(entries', inbounds', slots', opts)
  {
    EntriesOrdered(entries);
    InboundsOrdered(inbounds);
    SlotsOrdered(slots);
    hide EntryOutbounds, IfaceOutbounds, FrontOf, PoolsOf, DistinctNames, ByEntryName, ByInboundName, ByIndex;
    SameArrangement(ByEntryName(), entries, entries');
    SameArrangement(ByInboundName(), inbounds, inbounds');
    SameArrangement(ByIndex(), slots, slots');
  }

  // Two orders of the same elements are sorted into one.
  lemma SameArrangement<T(!new)>(less: (T, T) -> bool, s: seq<T>, t: seq<T>)
    requires multiset(s) == multiset(t) && Distinct(s) && TotalOrder(less, Elems(s))
    ensures SortBy(less, s) == SortBy(less, t)
  {
    DistinctMultiset(s);
    DistinctMultiset(t);
    SameElems(s, t);
    SortSorts(less, s, Elems(s));
    SortSorts(less, t, Elems(s));
    SortedUnique(less, SortBy(less, s), SortBy(less, t));
  }

  lemma EntriesOrdered(entries: seq<Entry>)
    requires forall i, j :: 0 <= i < j < |entries| ==> entries[i].name != entries[j].name
    ensures Distinct(entries) && TotalOrder(ByEntryName(), Elems(entries))
  {
    var dom, less := Elems(entries), ByEntryName();
    forall a, b | a in dom && b in dom && less(a, b) ensures !less(b, a) { BeforeAsymmetric(a.name, b.name); }
    forall a, b | a in dom && b in dom && a != b ensures less(a, b) || less(b, a) { BeforeTotal(a.name, b.name); }
    forall a, b, c | a in dom && b in dom && c in dom && less(a, b) && less(b, c) ensures less(a, c) {
      BeforeTransitive(a.name, b.name, c.name);
    }
  }

  lemma InboundsOrdered(inbounds: seq<UserInbound>)
    requires forall i, j :: 0 <= i < j < |inbounds| ==> inbounds[i].name != inbounds[j].name
    ensures Distinct(inbounds) && TotalOrder(ByInboundName(), Elems(inbounds))
  {
    var dom, less := Elems(inbounds), ByInboundName();
    forall a, b | a in dom && b in dom && less(a, b) ensures !less(b, a) { BeforeAsymmetric(a.name, b.name); }
    forall a, b | a in dom && b in dom && a != b ensures less(a, b) || less(b, a) { BeforeTotal(a.name, b.name); }
    forall a, b, c | a in dom && b in dom && c in dom && less(a, b) && less(b, c) ensures less(a, c) {
      BeforeTransitive(a.name, b.name, c.name);
    }
  }

  lemma SlotsOrdered(slots: seq<Slot>)
    requires forall i, j :: 0 <= i < j < |slots| ==> slots[i].index != slots[j].index
    ensures Distinct(slots) && TotalOrder(ByIndex(), Elems(slots))
  {
  }

  // ---- building it ----------------------------------------------------------------------

  method EmitEntries(ents: seq<Entry>, slotted: set<string>) returns (r: Result<(seq<Outbound>, set<string>), string>)
    ensures EntryOutbounds(ents, slotted).Err? ==> r == Err(EntryOutbounds(ents, slotted).error)
    ensures EntryOutbounds(ents, slotted).Ok? ==> r == Ok((EntryOutbounds(ents, slotted).value, HaveOut(ents)))
  {
    hide EntryOutbound, EntryTag;
    var outbounds: seq<Outbound> := [];
    var haveOut := {"direct", "block"};
    for i := 0 to |ents|
      invariant EntryOutbounds(ents[..i], slotted) == Ok(outbounds)
      invariant haveOut == HaveOut(ents[..i])
    {
      var e := ents[i];
      assert ents[..i + 1][..i] == ents[..i] && ents[..i + 1] == ents[..i] + [e];
      if e.enabled {
        var ob := EntryOutbound(e, slotted);
        if ob.Err? {
          EntryErrorStays(ents, i + 1, slotted);
          return Err(ob.error);
        }
        outbounds := outbounds + [ob.value];
        haveOut := haveOut + {EntryTag(e.name)};
      }
    }
    assert ents[..|ents|] == ents;
    return Ok((outbounds, haveOut));
  }

  lemma {:induction false} EntryErrorStays(ents: seq<Entry>, i: nat, slotted: set<string>)
    requires i <= |ents| && EntryOutbounds(ents[..i], slotted).Err?
    ensures EntryOutbounds(ents, slotted) == EntryOutbounds(ents[..i], slotted)
    decreases |ents| - i
  {
    if i == |ents| {
      assert ents[..i] == ents;
    } else {
      assert ents[..i + 1][..i] == ents[..i];
      EntryErrorStays(ents, i + 1, slotted);
    }
  }

  method EmitIfaces(ins: seq<UserInbound>, have: set<string>) returns (outbounds: seq<Outbound>, haveOut: set<string>)
    ensures outbounds == IfaceOutbounds(ins, have) && haveOut == have + OutTags(outbounds)
  {
    hide ParseTarget, IfaceTag;
    outbounds, haveOut := [], have;
    for i := 0 to |ins|
      invariant outbounds == IfaceOutbounds(ins[..i], have) && haveOut == have + OutTags(outbounds)
    {
      var u := ins[i];
      assert ins[..i + 1][..i] == ins[..i];
      var t := ParseTarget(u.target);
      if u.enabled && t.Ok? && t.value.ToIface? {
        var tag := IfaceTag(t.value.name);
        if tag !in haveOut {
          outbounds := outbounds + [IfaceOutbound(t.value.name)];
          haveOut := haveOut + {tag};
        }
      }
    }
    assert ins[..|ins|] == ins;
  }

  method EmitFront(ins: seq<UserInbound>, have: set<string>) returns (r: Result<Front, string>)
    ensures r == FrontOf(ins, have)
  {
    hide BuildInbound, ParseTarget, OutboundTagFor, InboundTag;
    var f := Front([], []);
    for i := 0 to |ins|
      invariant FrontOf(ins[..i], have) == Ok(f)
    {
      var u := ins[i];
      assert ins[..i + 1][..i] == ins[..i];
      if !u.enabled || (u.port == 0 && !u.unix) { continue; }
      var ib := BuildInbound(u);
      if ib.Err? {
        FrontErrorStays(ins, i + 1, have);
        return Err(ib.error);
      }
      var t := ParseTarget(u.target);
      if t.Err? {
        FrontErrorStays(ins, i + 1, have);
        return Err(t.error);
      }
      var outTag := OutboundTagFor(t.value);
      if outTag !in have {
        FrontErrorStays(ins, i + 1, have);
        return Err("no such outbound");
      }
      f := Front(f.inbounds + [ib.value], f.rules + [ToOutbound(InboundTag(u.name), outTag)]);
    }
    assert ins[..|ins|] == ins;
    return Ok(f);
  }

  lemma {:induction false} FrontErrorStays(ins: seq<UserInbound>, i: nat, have: set<string>)
    requires i <= |ins| && FrontOf(ins[..i], have).Err?
    ensures FrontOf(ins, have) == FrontOf(ins[..i], have)
    decreases |ins| - i
  {
    if i == |ins| {
      assert ins[..i] == ins;
    } else {
      assert ins[..i + 1][..i] == ins[..i];
      FrontErrorStays(ins, i + 1, have);
    }
  }

  method EmitMembers(idx: nat, ms: seq<Member>) returns (outbounds: seq<Outbound>, loaded: set<string>, first: string)
    ensures outbounds == MemberOutbounds(idx, ms) && loaded == LoadedKeys(ms) && first == FirstTag(idx, ms)
  {
    hide SlotMemberTag, MemberOutbounds, LoadedKeys, FirstTag, MemberAllowed, MemberOutbound, LoadedMembers;
    outbounds, loaded, first := [], {}, "";
    NoMembers(idx);
    for i := 0 to |ms|
      invariant outbounds == MemberOutbounds(idx, ms[..i]) && loaded == LoadedKeys(ms[..i])
      invariant first == FirstTag(idx, ms[..i])
    {
      var m := ms[i];
      assert ms[..i + 1] == ms[..i] + [m];
      OneMore(idx, ms[..i], m);
      if !MemberAllowed(m.outbound) { continue; }
      if first == "" { first := SlotMemberTag(idx, m.key); }
      loaded := loaded + {m.key};
      outbounds := outbounds + [MemberOutbound(idx, m)];
    }
    assert ms[..|ms|] == ms;
  }

  lemma NoMembers(idx: nat)
    ensures MemberOutbounds(idx, []) == [] && LoadedKeys([]) == {} && FirstTag(idx, []) == ""
  {
  }

  // What one member more adds to a slot.
  lemma OneMore(idx: nat, ms: seq<Member>, m: Member)
    ensures MemberAllowed(m.outbound) ==>
              && m.outbound.Stored?
              && MemberOutbounds(idx, ms + [m]) == MemberOutbounds(idx, ms) + [MemberOutbound(idx, m)]
              && LoadedKeys(ms + [m]) == LoadedKeys(ms) + {m.key}
              && FirstTag(idx, ms + [m]) ==
                   (if FirstTag(idx, ms) == "" then SlotMemberTag(idx, m.key) else FirstTag(idx, ms))
    ensures !MemberAllowed(m.outbound) ==>
              && MemberOutbounds(idx, ms + [m]) == MemberOutbounds(idx, ms) && LoadedKeys(ms + [m]) == LoadedKeys(ms)
              && FirstTag(idx, ms + [m]) == FirstTag(idx, ms)
  {
    var all := ms + [m];
    assert all[..|all| - 1] == ms;
    assert LoadedMembers(all) == if MemberAllowed(m.outbound) then LoadedMembers(ms) + [m] else LoadedMembers(ms);
    MemberTagNonEmpty(idx, ms);
    if MemberAllowed(m.outbound) { OneMoreLoaded(idx, ms, m); }
  }

  lemma OneMoreLoaded(idx: nat, ms: seq<Member>, m: Member)
    requires LoadedMembers(ms + [m]) == LoadedMembers(ms) + [m] && MemberAllowed(m.outbound)
    ensures MemberOutbounds(idx, ms + [m]) == MemberOutbounds(idx, ms) + [MemberOutbound(idx, m)]
    ensures LoadedKeys(ms + [m]) == LoadedKeys(ms) + {m.key}
  {
    hide SlotMemberTag, LoadedMembers;
    assert m in LoadedMembers(ms + [m]);
  }

  lemma MemberTagNonEmpty(idx: nat, ms: seq<Member>)
    ensures FirstTag(idx, ms) == "" <==> LoadedMembers(ms) == []
  {
  }

  method BuildBalancer(idx: nat, master: string, pick: MasterPick, loaded: set<string>, first: string)
    returns (b: Balancer)
    ensures b == SlotBalancer(idx, master, pick, loaded, first)
  {
    var fallback := first;
    if fallback == "" { fallback := "block"; }
    var selector, leastLoad := [SlotOutPrefix(idx)], true;
    var picked: seq<string> := [];
    for i := 0 to |pick.picked|
      invariant picked == PickedTags(idx, pick.picked[..i], loaded)
    {
      assert pick.picked[..i + 1][..i] == pick.picked[..i];
      if pick.picked[i] in loaded { picked := picked + [SlotMemberTag(idx, pick.picked[i])]; }
    }
    assert pick.picked[..|pick.picked|] == pick.picked;
    if |picked| > 0 {
      var active := pick.active;
      if active == 0 { active := BALANCER_EXPECTED; }
      active := Min(active, |picked|);
      selector := picked[..active];
      fallback := picked[0];
      if |picked| > active { fallback := picked[active]; }
      leastLoad := false;
    }
    b := Balancer(SlotBalTag(idx, master), selector, leastLoad, fallback);
  }

  method EmitSlot(s: Slot, opts: Options)
    returns (inb: Inbound, outbounds: seq<Outbound>, rules: seq<Rule>, balancers: seq<Balancer>)
    ensures inb == SlotInbound(s) && outbounds == DialerOutbounds(s, opts) + MemberOutbounds(s.index, s.members)
    ensures rules == SlotRules(s) && balancers == SlotBalancers(s)
  {
    hide SlotBalancer, SlotBalTag, SlotInTag, DialerEmail, DialerTag;
    var masters := SlotMasters(s);
    var clients: seq<Client> := [];
    outbounds := [];
    for i := 0 to |masters|
      invariant |clients| == i && |outbounds| == i
      invariant forall j :: 0 <= j < i ==> clients[j] == SlotInbound(s).clients[j]
      invariant forall j :: 0 <= j < i ==> outbounds[j] == DialerOutbounds(s, opts)[j]
    {
      clients := clients + [Client(DialerId(masters[i]), "", "", DialerEmail(masters[i]))];
      outbounds := outbounds + [DialerOutbound(s.index, masters[i], opts)];
    }
    inb := Inbound(SlotInTag(s.index), "vless", SlotPort(s.index), clients, [], "");
    var members, loaded, first := EmitMembers(s.index, s.members);
    assert outbounds == DialerOutbounds(s, opts);
    outbounds := outbounds + members;
    rules, balancers := [], [];
    for i := 0 to |masters|
      invariant |rules| == i && |balancers| == i
      invariant forall j :: 0 <= j < i ==> rules[j] == SlotRules(s)[j]
      invariant forall j :: 0 <= j < i ==> balancers[j] == SlotBalancers(s)[j]
    {
      var b := BuildBalancer(s.index, masters[i], PickOf(s, masters[i]), loaded, first);
      balancers := balancers + [b];
      rules := rules + [ToBalancer(SlotInTag(s.index), DialerEmail(masters[i]), SlotBalTag(s.index, masters[i]))];
    }
  }

  method EmitPools(slots: seq<Slot>, opts: Options) returns (p: Pools)
    ensures p == PoolsOf(slots, opts)
  {
    hide SlotInbound, DialerOutbounds, MemberOutbounds, SlotRules, SlotBalancers;
    p := Pools([], [], [], []);
    for i := 0 to |slots|
      invariant p == PoolsOf(slots[..i], opts)
    {
      assert slots[..i + 1][..i] == slots[..i];
      var inb, outs, rules, bals := EmitSlot(slots[i], opts);
      assert p.outbounds + outs == p.outbounds + DialerOutbounds(slots[i], opts) +
          MemberOutbounds(slots[i].index, slots[i].members);
      p := Pools(p.inbounds + [inb], p.outbounds + outs, p.rules + rules, p.balancers + bals);
    }
    assert slots[..|slots|] == slots;
  }

  method Compile(entries: seq<Entry>, inbounds: seq<UserInbound>, slots: seq<Slot>, opts: Options)
    returns (r: Result<Config, string>)
    ensures r == Compiled(entries, inbounds, slots, opts)
  {
    hide EntryOutbounds, IfaceOutbounds, FrontOf, PoolsOf;
    var ents, ins, sl := SortBy(ByEntryName(), entries), SortBy(ByInboundName(), inbounds), SortBy(ByIndex(), slots);
    var e := EmitEntries(ents, SlotNames(sl));
    if e.Err? { return Err(e.error); }
    var ifaces, haveOut := EmitIfaces(ins, e.value.1);
    var front := EmitFront(ins, haveOut);
    if front.Err? { return Err(front.error); }
    var p := EmitPools(sl, opts);
    var outbounds := [BLOCK, DIRECT] + e.value.0 + ifaces + p.outbounds;
    var rules := [ToOutbound(API_TAG, API_TAG)] + front.value.rules;
    return Ok(Config(opts.fixed, front.value.inbounds + [API_INBOUND] + p.inbounds, outbounds,
                     Routing(rules + p.rules, p.balancers)));
  }
}
