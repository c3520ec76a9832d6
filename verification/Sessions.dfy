// The supervisor's decision between applying live and restarting
// (daemon/xray.go: applyLocked, applyLive), and who stays connected across it.
module Sessions {
  import opened Wrappers
  import opened Text
  import opened Sorting
  import opened XrayConfig
  import opened Generate
  import opened FailClosed
  import opened Tags
  import opened Names
  import opened RoutingTable
  import opened LivePlan
  import opened LiveApply
  import opened NoLeak

  // How a client got in: by a credential, or through an inbound that asks for none.
  datatype Login = Anonymous | Known(cred: Cred)

  // A client connected through an inbound.
  datatype Session = Session(inTag: string, login: Login)

  // An inbound that lets anyone in: a socks one without a user, or the api's.
  predicate Open(b: Inbound) {
    b.accounts == [] && b.protocol in {"socks", "dokodemo-door"}
  }

  predicate Admits(b: Inbound, login: Login) {
    match login
    case Anonymous => Open(b)
    case Known(c) => c in Credentials(b)
  }

  // Whether an inbound other than a slot's lets the session in.
  predicate AcceptedBy(inbounds: map<string, Inbound>, s: Session) {
    s.inTag in inbounds && !IsSlotInTag(s.inTag) && Admits(inbounds[s.inTag], s.login)
  }

  predicate Accepts(cfg: Config, s: Session) {
    exists b :: b in cfg.inbounds && b.tag == s.inTag && !IsSlotInTag(s.inTag) && Admits(b, s.login)
  }

  predicate AddressableConfig(cfg: Config) {
    Addressable(OutboundTags(cfg.outbounds)) && Addressable(InboundTags(cfg.inbounds))
  }

  // running: the config the process reflects, if it runs; file: the one it
  // would be (re)started from; sessions: the clients connected to it.
  datatype World = World(running: Option<Config>, file: Option<Config>, sessions: set<Session>, restarts: nat,
                         liveApplies: nat)

  // during: the clients that log in while a live apply is under way.
  datatype Attempt = Attempt(cfg: Config, writeOk: bool, ready: bool, answers: nat, during: set<Session>)

  datatype Event =
    | Reconcile(a: Attempt)
    | ForceRestart(a: Attempt)
    | LastGood(inbounds: seq<UserInbound>)
    | Crash
    | Login(s: Session)
    | Logout(s: Session)

  // There is something to serve: an inbound that is not the box's own.
  predicate Routable(cfg: Config) {
    exists b :: b in cfg.inbounds && b.tag != API_TAG && !IsSlotInTag(b.tag)
  }

  predicate AnyListening(inbounds: seq<UserInbound>) {
    exists u :: u in inbounds && Listening(u)
  }

  // A live apply from one config to another, with everything it was worked out from.
  ghost predicate Transition(from: Config, to: Config, was: LiveConfig, want: LiveConfig, p: Plan) {
    && AddressableConfig(from) && AddressableConfig(to)
    && Decomposes(from, was) && Decomposes(to, want)
    && !NeedsRestart(was, want) && IsLivePlan(p, was, want)
  }

  // The api can express the change and answers every call of it.
  ghost predicate AppliesLive(from: Config, a: Attempt) {
    exists was, want, p :: Transition(from, a.cfg, was, want, p) &&
      (Calls(p, was, want) == [] || (a.ready && a.answers >= |Calls(p, was, want)|))
  }

  // Some state of the live apply accepted the session.
  ghost predicate AcceptedMidway(from: Config, to: Config, s: Session) {
    exists was, want, p, k: nat :: Transition(from, to, was, want, p) && k <= |Calls(p, was, want)| &&
      AcceptedBy(After(p, was, want, k).inbounds, s)
  }

  ghost predicate ApplyStep(w: World, a: Attempt, w': World) {
    if !Routable(a.cfg) then w' == w.(running := None, sessions := {})
    else if w.running == Some(a.cfg) || !a.writeOk then w' == w
    else if w.running.None? then w' == w.(running := Some(a.cfg), file := Some(a.cfg), sessions := {})
    else if AppliesLive(w.running.value, a) then
      && (forall s :: s in a.during ==> AcceptedMidway(w.running.value, a.cfg, s))
      && w'.running == w'.file == Some(a.cfg) && w'.sessions == w.sessions + a.during
      && w'.restarts == w.restarts
    else w' == World(Some(a.cfg), Some(a.cfg), {}, w.restarts + 1, w.liveApplies)
  }

  ghost predicate Step(w: World, e: Event, w': World) {
    match e
    case Reconcile(a) => ApplyStep(w, a, w')
    case ForceRestart(a) => ApplyStep(w.(running := None, sessions := {}), a, w')
    case LastGood(inbounds) =>
      w' == if w.running.None? && AnyListening(inbounds) then w.(running := w.file, sessions := {}) else w
    case Crash => w' == if w.running.Some? then w.(running := w.file, sessions := {}) else w
    case Login(s) =>
      w' == if w.running.Some? && Accepts(w.running.value, s) then w.(sessions := w.sessions + {s}) else w
    case Logout(s) => w' == w.(sessions := w.sessions - {s})
  }

  // Every connected client is one the config in force lets in.
  ghost predicate Authorised(w: World) {
    && (w.running.Some? ==> w.file == w.running)
    && forall s :: s in w.sessions ==> w.running.Some? && Accepts(w.running.value, s)
  }

  const BOOT := World(None, None, {}, 0, 0)

  // ws is a run of the events from boot.
  ghost predicate IsRun(ws: seq<World>, es: seq<Event>) {
    |ws| == |es| + 1 && ws[0] == BOOT && forall i :: 0 <= i < |es| ==> Step(ws[i], es[i], ws[i + 1])
  }

  lemma AcceptsDecomposed(cfg: Config, lc: LiveConfig, s: Session)
    requires Decomposes(cfg, lc)
    ensures Accepts(cfg, s) <==> AcceptedBy(lc.inbounds, s)
    ensures AcceptedBy(lc.inbounds, s) && s.login.Known? ==>
              s.inTag in lc.creds && TextOf(s.login.cred) in lc.creds[s.inTag]
  {
    if Accepts(cfg, s) {
      var b :| b in cfg.inbounds && b.tag == s.inTag && !IsSlotInTag(s.inTag) && Admits(b, s.login);
      assert lc.inbounds[b.tag] == b;
    }
  }

  // A plan that is not a restart keeps the text of every credential.
  lemma NothingRevoked(was: LiveConfig, want: LiveConfig, tag: string, c: CredText)
    requires !NeedsRestart(was, want)
    requires tag in was.creds && c in was.creds[tag]
    ensures tag in want.creds && c in want.creds[tag]
  {
    assert !Revokes(was.creds, want.creds, tag);
  }

  // ---- who stays connected that should not -------------------------------------------

  function AccountText(a: Account): string { a.user + ":" + a.pass }

  // No account turns into another one whose user and password run together to
  // the same text.
  predicate NoneRespelled(from: Config, to: Config) {
    forall b, d, a, e ::
      && b in from.inbounds && d in to.inbounds && b.tag == d.tag && !IsSlotInTag(b.tag)
      && a in b.accounts && e in d.accounts && AccountText(a) == AccountText(e)
      ==> a == e
  }

  // No inbound that lets anyone in goes, or starts asking who they are.
  predicate NoneClosed(from: Config, to: Config) {
    forall b :: b in from.inbounds && !IsSlotInTag(b.tag) && Open(b) ==>
                  exists d :: d in to.inbounds && d.tag == b.tag && Open(d)
  }

  predicate OneAccountEach(cfg: Config) {
    forall b :: b in cfg.inbounds ==> |b.accounts| <= 1
  }

  // A live apply keeps letting in everyone it let in before exactly when no
  // account is respelled and no open inbound closed.
  lemma LiveApplyKeepsIff(from: Config, to: Config, was: LiveConfig, want: LiveConfig, p: Plan)
    requires Transition(from, to, was, want, p) && OneAccountEach(to)
    ensures (forall s :: Accepts(from, s) ==> Accepts(to, s)) <==> NoneRespelled(from, to) && NoneClosed(from, to)
  {
    hide Transition, NoneRespelled, NoneClosed, OneAccountEach, Accepts;
    if NoneRespelled(from, to) && NoneClosed(from, to) {
      forall s | Accepts(from, s) ensures Accepts(to, s) { SessionKept(from, to, was, want, p, s); }
    } else {
      var s := SessionLost(from, to, was, want, p);
    }
  }

  lemma SessionKept(from: Config, to: Config, was: LiveConfig, want: LiveConfig, p: Plan, s: Session)
    requires Transition(from, to, was, want, p) && Accepts(from, s)
    requires NoneRespelled(from, to) && NoneClosed(from, to)
    ensures Accepts(to, s)
  {
    hide IsLivePlan, AddressableConfig, Credentials, NoneRespelled, Open;
    AcceptsDecomposed(from, was, s);
    match s.login
    case Anonymous =>
      hide NeedsRestart;
      AcceptsDecomposed(to, want, s);
    case Known(c) =>
      hide NoneClosed;
      NothingRevoked(was, want, s.inTag, TextOf(c));
      hide NeedsRestart;
      var d :| d in Credentials(want.inbounds[s.inTag]) && TextOf(d) == TextOf(c);
      SameTextSame(from, to, was.inbounds[s.inTag], want.inbounds[s.inTag], c, d);
      AcceptsDecomposed(to, want, s);
  }

  lemma SameTextSame(from: Config, to: Config, b: Inbound, b': Inbound, c: Cred, d: Cred)
    requires NoneRespelled(from, to) && b in from.inbounds && b' in to.inbounds && b.tag == b'.tag &&
             !IsSlotInTag(b.tag)
    requires c in Credentials(b) && d in Credentials(b') && TextOf(c) == TextOf(d)
    ensures c == d
  {
    hide Credentials;
    if c.SocksCred? {
      CredAccount(b, c);
      CredAccount(b', d);
      assert AccountText(Account(c.user, c.pass)) == AccountText(Account(d.user, d.pass));
    }
  }

  lemma CredAccount(b: Inbound, c: Cred)
    requires c.SocksCred?
    ensures c in Credentials(b) <==> Account(c.user, c.pass) in b.accounts
  {
  }

  lemma SessionLost(from: Config, to: Config, was: LiveConfig, want: LiveConfig, p: Plan) returns (s: Session)
    requires Transition(from, to, was, want, p) && OneAccountEach(to)
    requires !(NoneRespelled(from, to) && NoneClosed(from, to))
    ensures Accepts(from, s) && !Accepts(to, s)
  {
    hide IsLivePlan, NeedsRestart, AddressableConfig, Decomposes, Accepts;
    if NoneClosed(from, to) {
      hide NoneClosed;
      var b, d, a, e :| b in from.inbounds && d in to.inbounds && b.tag == d.tag && !IsSlotInTag(b.tag) &&
        a in b.accounts && e in d.accounts && AccountText(a) == AccountText(e) && a != e;
      s := RespelledLost(from, to, want, b, d, a, e);
    } else {
      hide NoneRespelled;
      var b :| b in from.inbounds && !IsSlotInTag(b.tag) && Open(b) &&
        !exists d :: d in to.inbounds && d.tag == b.tag && Open(d);
      s := ClosedLost(from, to, b);
    }
  }

  lemma ClosedLost(from: Config, to: Config, b: Inbound) returns (s: Session)
    requires b in from.inbounds && !IsSlotInTag(b.tag) && Open(b)
    requires !exists d :: d in to.inbounds && d.tag == b.tag && Open(d)
    ensures Accepts(from, s) && !Accepts(to, s)
  {
    s := Session(b.tag, Anonymous);
  }

  lemma RespelledLost(from: Config, to: Config, want: LiveConfig, b: Inbound, d: Inbound, a: Account, e: Account)
    returns (s: Session)
    requires Decomposes(to, want) && OneAccountEach(to)
    requires b in from.inbounds && d in to.inbounds && b.tag == d.tag && !IsSlotInTag(b.tag)
    requires a in b.accounts && e in d.accounts && a != e
    ensures Accepts(from, s) && !Accepts(to, s)
  {
    hide Credentials;
    var c := SocksCred(a.user, a.pass);
    s := Session(b.tag, Known(c));
    CredAccount(b, c);
    CredAccount(d, c);
    assert Account(c.user, c.pass) == a;
    AcceptsDecomposed(to, want, s);
    assert want.inbounds[b.tag] == d;
  }

  // Where no user name holds a colon, nothing is ever respelled.
  predicate PlainUsers(cfg: Config) {
    forall b, a :: b in cfg.inbounds && a in b.accounts ==> ':' !in a.user
  }

  lemma PlainNeverRespelled(from: Config, to: Config)
    requires PlainUsers(from) && PlainUsers(to)
    ensures NoneRespelled(from, to)
  {
    forall b, d, a, e | b in from.inbounds && d in to.inbounds && a in b.accounts && e in d.accounts &&
      AccountText(a) == AccountText(e) ensures a == e
    {
      CutAt(a.user, ':', a.pass);
      CutAt(e.user, ':', e.pass);
    }
  }

  // Every compiled config has one account an inbound at most.
  lemma CompiledOneAccount(i: Inputs)
    requires Compilation(i).Ok?
    ensures OneAccountEach(Compilation(i).value)
  {
    hide EntryOutbounds, IfaceOutbounds, SlotNames;
    var ents, ins, sl := SortBy(ByEntryName(), i.entries), SortBy(ByInboundName(), i.inbounds),
        SortBy(ByIndex(), i.slots);
    FrontOneAccount(ins, HaveOut(ents) + OutTags(IfaceOutbounds(ins, HaveOut(ents))));
    PoolsNoAccount(sl, i.opts);
  }

  lemma {:induction false} FrontOneAccount(ins: seq<UserInbound>, have: set<string>)
    requires FrontOf(ins, have).Ok?
    ensures forall b :: b in FrontOf(ins, have).value.inbounds ==> |b.accounts| <= 1
  {
    hide ParseTarget, OutboundTagFor, InboundTag;
    if ins != [] { FrontOneAccount(ins[..|ins| - 1], have); }
  }

  lemma {:induction false} PoolsNoAccount(slots: seq<Slot>, opts: Options)
    ensures forall b :: b in PoolsOf(slots, opts).inbounds ==> b.accounts == []
  {
    hide DialerOutbounds, MemberOutbounds, SlotRules, SlotBalancers;
    if slots != [] { PoolsNoAccount(slots[..|slots| - 1], opts); }
  }

  // What makes a compiled config worth running is an enabled inbound with a port
  // or a socket.
  lemma CompiledRoutable(i: Inputs)
    requires Compilation(i).Ok?
    ensures Routable(Compilation(i).value) <==> AnyListening(i.inbounds)
  {
    hide EntryOutbounds, IfaceOutbounds, SlotNames, FrontOf, PoolsOf, Listening, SlotInTag, InboundTag, IsSlotInTag;
    var ents, ins, sl := SortBy(ByEntryName(), i.entries), SortBy(ByInboundName(), i.inbounds),
        SortBy(ByIndex(), i.slots);
    var have := HaveOut(ents) + OutTags(IfaceOutbounds(ins, HaveOut(ents)));
    SortedSame(i.entries, i.inbounds, i.slots);
    FrontListening(ins, have);
    PoolsOwn(sl, i.opts);
    SameListening(ins, i.inbounds);
    var bs, front, pools := Compilation(i).value.inbounds, FrontOf(ins, have).value.inbounds,
        PoolsOf(sl, i.opts).inbounds;
    hide AnyListening, HaveOut, Compiled;
    assert bs == front + [API_INBOUND] + pools;
    if front != [] { assert front[0] in bs && front[0] in front; }
    if b :| b in bs && b.tag != API_TAG && !IsSlotInTag(b.tag) { assert b in front; }
  }

  lemma SameListening(a: seq<UserInbound>, b: seq<UserInbound>)
    requires forall u :: u in a <==> u in b
    ensures AnyListening(a) <==> AnyListening(b)
  {
    hide Listening;
  }

  lemma {:induction false} FrontListening(ins: seq<UserInbound>, have: set<string>)
    requires FrontOf(ins, have).Ok?
    ensures FrontOf(ins, have).value.inbounds != [] <==> AnyListening(ins)
    ensures forall b :: b in FrontOf(ins, have).value.inbounds ==> b.tag != API_TAG && !IsSlotInTag(b.tag)
  {
    hide ParseTarget, OutboundTagFor, InboundTag, Listening, BuildInbound, IsSlotInTag;
    if ins != [] {
      var init, u := ins[..|ins| - 1], ins[|ins| - 1];
      assert ins == init + [u];
      ListeningSnoc(init, u);
      hide AnyListening;
      FrontListening(init, have);
      if Listening(u) {
        assert FrontOf(ins, have).value.inbounds == FrontOf(init, have).value.inbounds + [BuildInbound(u).value];
        BuiltTagged(u);
      } else {
        assert FrontOf(ins, have) == FrontOf(init, have);
      }
      hide FrontOf;
    }
  }

  lemma ListeningSnoc(ins: seq<UserInbound>, u: UserInbound)
    ensures AnyListening(ins + [u]) <==> AnyListening(ins) || Listening(u)
  {
    hide Listening;
    assert u in ins + [u];
    forall v | v in ins ensures v in ins + [u] { }
  }

  lemma BuiltTagged(u: UserInbound)
    requires BuildInbound(u).Ok?
    ensures var t := BuildInbound(u).value.tag; t != API_TAG && !IsSlotInTag(t)
  {
    TagFamilies(u.name, "", 0, "");
    InboundTagNonEmpty(u.name);
    hide InboundTag;
  }

  lemma {:induction false} PoolsOwn(slots: seq<Slot>, opts: Options)
    ensures forall b :: b in PoolsOf(slots, opts).inbounds ==> IsSlotInTag(b.tag)
  {
    hide DialerOutbounds, MemberOutbounds, SlotRules, SlotBalancers, SlotInTag, IsSlotInTag;
    if slots != [] {
      PoolsOwn(slots[..|slots| - 1], opts);
      SlotInTagMatches(slots[|slots| - 1].index);
    }
  }

  lemma InboundTagNonEmpty(name: string)
    ensures InboundTag(name) != "" && !IsSlotInTag(InboundTag(name))
  {
    var t := InboundTag(name);
    assert t[0] == 'i' && "slot"[0] == 's';
    if |t| >= 4 { assert t[..4][0] == 'i'; }
  }

  // ---- over runs ------------------------------------------------------------------------

  // What an event must not do: change the running config live in a way that
  // leaves someone connected.
  ghost predicate Keeps(w: World, e: Event) {
    e.Reconcile? && w.running.Some? && AppliesLive(w.running.value, e.a) ==>
      NoneRespelled(w.running.value, e.a.cfg) && NoneClosed(w.running.value, e.a.cfg)
  }

  lemma MidwayAccepted(from: Config, to: Config, s: Session)
    requires AcceptedMidway(from, to, s) && NoneRespelled(from, to) && NoneClosed(from, to)
    ensures Accepts(to, s)
  {
    hide IsLivePlan, NeedsRestart, AddressableConfig, Calls, After, NoneRespelled, NoneClosed, Admits;
    var was, want, p, k: nat :| Transition(from, to, was, want, p) && k <= |Calls(p, was, want)| &&
      AcceptedBy(After(p, was, want, k).inbounds, s);
    OnTheWay(p, was, want, k);
    AcceptsDecomposed(to, want, s);
    AcceptsDecomposed(from, was, s);
    if AcceptedBy(was.inbounds, s) { SessionKept(from, to, was, want, p, s); }
  }

  lemma StepKeepsAuthorised(w: World, e: Event, w': World)
    requires Authorised(w) && Step(w, e, w') && Keeps(w, e)
    ensures Authorised(w')
  {
    hide Accepts, AcceptedMidway, Transition, Calls, NoneRespelled, NoneClosed, AppliesLive;
    match e
    case Reconcile(a) =>
      if Routable(a.cfg) && w.running != Some(a.cfg) && a.writeOk && w.running.Some? &&
          AppliesLive(w.running.value, a) {
        LiveKeepsAuthorised(w, a, w');
      }
    case _ =>
  }

  lemma LiveKeepsAuthorised(w: World, a: Attempt, w': World)
    requires Authorised(w) && ApplyStep(w, a, w') && Routable(a.cfg) && w.running != Some(a.cfg) && a.writeOk
    requires w.running.Some? && AppliesLive(w.running.value, a)
    requires NoneRespelled(w.running.value, a.cfg) && NoneClosed(w.running.value, a.cfg)
    ensures Authorised(w')
  {
    hide Accepts, AcceptedMidway, Transition, Calls, NoneRespelled, NoneClosed;
    var from := w.running.value;
    var was, want, p :| Transition(from, a.cfg, was, want, p);
    forall s | s in w'.sessions ensures Accepts(a.cfg, s) {
      if s in w.sessions { SessionKept(from, a.cfg, was, want, p, s); } else { MidwayAccepted(from, a.cfg, s); }
    }
  }

  // Over every run of reconciles, live applies, restarts, crashes and logins
  // (also in the middle of a live apply), nobody is connected whom the config in
  // force would not let in.
  lemma {:induction false} SessionsAlwaysAuthorised(ws: seq<World>, es: seq<Event>, i: nat)
    requires IsRun(ws, es) && i < |ws| && forall j :: 0 <= j < |es| ==> Keeps(ws[j], es[j])
    ensures Authorised(ws[i])
  {
    hide Step, Keeps;
    if i > 0 {
      SessionsAlwaysAuthorised(ws, es, i - 1);
      StepKeepsAuthorised(ws[i - 1], es[i - 1], ws[i]);
    }
  }

  // And whenever an event does what it must not, one login before it is enough
  // for someone to stay connected.
  lemma UnsafeApplyStrands(w: World, a: Attempt) returns (s: Session, w1: World, w2: World)
    requires Authorised(w) && w.running.Some? && w.running != Some(a.cfg)
    requires Routable(a.cfg) && a.writeOk && a.during == {} && OneAccountEach(a.cfg)
    requires AppliesLive(w.running.value, a) && !Keeps(w, Reconcile(a))
    ensures Step(w, Login(s), w1) && Step(w1, Reconcile(a), w2) && !Authorised(w2)
  {
    hide Accepts, AcceptedMidway, Transition, Calls, NoneRespelled, NoneClosed, OneAccountEach;
    var from := w.running.value;
    var was, want, p :| Transition(from, a.cfg, was, want, p);
    s := SessionLost(from, a.cfg, was, want, p);
    w1 := w.(sessions := w.sessions + {s});
    w2 := World(Some(a.cfg), Some(a.cfg), w1.sessions, w.restarts, w.liveApplies);
    assert s in w2.sessions;
  }

  // ---- two compiled configs that leave someone connected --------------------------------

  const PLAIN_OPTIONS := Options(Fixed("", "", "", "", ""), false)

  function Socks(name: string, port: nat, enabled: bool, user: string, password: string): UserInbound {
    UserInbound(name, "socks", port, false, enabled, "direct", [], user, password, true, "")
  }

  function SocksInbound(name: string, port: nat, user: string, password: string): Inbound {
    Inbound(InboundTag(name), "socks", port, [], if user != "" then [Account(user, password)] else [], "")
  }

  // A box with two socks inbounds to the internet, of which the first may change
  // and the second stays.
  function Box(enabled: bool, user: string, password: string): Inputs {
    Inputs([], [Socks("s", 1080, enabled, user, password), Socks("t", 1081, true, "", "")], [], PLAIN_OPTIONS)
  }

  function Changing(user: string, password: string): Inbound { SocksInbound("s", 1080, user, password) }

  function Staying(): seq<Inbound> { [SocksInbound("t", 1081, "", ""), API_INBOUND] }

  function BoxConfig(enabled: bool, user: string, password: string): Config {
    Config(PLAIN_OPTIONS.fixed,
           (if enabled then [Changing(user, password)] else []) + Staying(),
           [BLOCK, DIRECT],
           Routing([ToOutbound(API_TAG, API_TAG)] + (if enabled then [ToOutbound(InboundTag("s"), "direct")] else []) +
                   [ToOutbound(InboundTag("t"), "direct")], []))
  }

  lemma ToInternet()
    ensures ParseTarget("direct") == Ok(ToDirect) && OutboundTagFor(ToDirect) == "direct"
  {
    TrimmedIsFixed("direct");
  }

  lemma BuiltSocks(name: string, port: nat, enabled: bool, user: string, password: string)
    ensures BuildInbound(Socks(name, port, enabled, user, password)) == Ok(SocksInbound(name, port, user, password))
    ensures port > 0 ==> (Listening(Socks(name, port, enabled, user, password)) <==> enabled)
  {
    hide InboundTag;
  }

  lemma BoxFront(enabled: bool, user: string, password: string, have: set<string>)
    requires "direct" in have
    ensures FrontOf(Box(enabled, user, password).inbounds, have) ==
            Ok(Front((if enabled then [Changing(user, password)] else []) + [SocksInbound("t", 1081, "", "")],
                     (if enabled then [ToOutbound(InboundTag("s"), "direct")] else []) +
                     [ToOutbound(InboundTag("t"), "direct")]))
  {
    var s, t := Socks("s", 1080, enabled, user, password), Socks("t", 1081, true, "", "");
    ToInternet();
    BuiltSocks("s", 1080, enabled, user, password);
    BuiltSocks("t", 1081, true, "", "");
    hide InboundTag, BuildInbound, Listening, ParseTarget, OutboundTagFor, SocksInbound, FrontOf;
    FrontTwo(s, t, have);
    var b, r := Changing(user, password), ToOutbound(InboundTag("s"), "direct");
    assert RuleOf(s) == r && RuleOf(t) == ToOutbound(InboundTag("t"), "direct");
    assert [b] + [SocksInbound("t", 1081, "", "")] == [b, SocksInbound("t", 1081, "", "")];
    assert [r] + [RuleOf(t)] == [r, RuleOf(t)] && [] + [RuleOf(t)] == [RuleOf(t)];
    assert [] + [SocksInbound("t", 1081, "", "")] == [SocksInbound("t", 1081, "", "")];
  }

  lemma BoxCompiled(enabled: bool, user: string, password: string)
    ensures Compilation(Box(enabled, user, password)) == Ok(BoxConfig(enabled, user, password))
  {
    var s, t := Socks("s", 1080, enabled, user, password), Socks("t", 1081, true, "", "");
    BoxSorted(s, t);
    BoxFaces(s, t);
    NoSlots();
    assert "direct" in HaveOut([]);
    hide InboundTag, SocksInbound, Compiled, SortBy, FrontOf, IfaceOutbounds, HaveOut, SlotNames, PoolsOf;
    BoxFront(enabled, user, password, HaveOut([]));
    var front := FrontOf([s, t], HaveOut([])).value;
    CompiledOf([], [s, t], [], PLAIN_OPTIONS, [], front);
    BoxAssembled(enabled, user, password, front);
  }

  lemma BoxAssembled(enabled: bool, user: string, password: string, front: Front)
    requires front.inbounds == (if enabled then [Changing(user, password)] else []) + [SocksInbound("t", 1081, "", "")]
    requires front.rules == (if enabled then [ToOutbound(InboundTag("s"), "direct")] else []) +
                            [ToOutbound(InboundTag("t"), "direct")]
    ensures front.inbounds + [API_INBOUND] + [] == BoxConfig(enabled, user, password).inbounds
    ensures [ToOutbound(API_TAG, API_TAG)] + front.rules + [] == BoxConfig(enabled, user, password).routing.rules
    ensures [BLOCK, DIRECT] + [] + [] == [BLOCK, DIRECT]
  {
    hide InboundTag, SocksInbound;
  }

  lemma NoSlots()
    ensures SlotNames([]) == {} && PoolsOf([], PLAIN_OPTIONS) == Pools([], [], [], [])
    ensures EntryOutbounds([], {}) == Ok([])
  {
  }

  lemma BoxFaces(s: UserInbound, t: UserInbound)
    requires s.target == "direct" && t.target == "direct"
    ensures IfaceOutbounds([s, t], HaveOut([])) == []
  {
    ToInternet();
    hide ParseTarget, HaveOut;
    NoIfaces([s, t], HaveOut([]));
  }

  lemma BoxSorted(s: UserInbound, t: UserInbound)
    requires s.name == "s" && t.name == "t"
    ensures SortBy(ByInboundName(), [s, t]) == [s, t] && SortBy(ByEntryName(), []) == [] && SortBy(ByIndex(), []) == []
  {
    assert [s, t][1..] == [t] && [t][1..] == [];
    assert Before("s", "t");
  }

  lemma BoxTags()
    ensures InboundTag("s") != InboundTag("t") && InboundTag("s") != API_TAG && InboundTag("t") != API_TAG
    ensures InboundTag("s") != "" && InboundTag("t") != ""
    ensures !IsSlotInTag(InboundTag("s")) && !IsSlotInTag(InboundTag("t"))
  {
    hide InboundTag, IsSlotInTag;
    TagFamilies("s", "", 0, "");
    TagFamilies("t", "", 0, "");
    InboundTagNonEmpty("s");
    InboundTagNonEmpty("t");
    assert "s"[0] == 's' && "t"[0] == 't';
    PlainInboundsApart("s", "t");
  }

  lemma BoxAddressable(enabled: bool, user: string, password: string)
    ensures AddressableConfig(BoxConfig(enabled, user, password))
  {
    BoxTags();
    hide InboundTag, Addressable;
    var cfg := BoxConfig(enabled, user, password);
    assert "block" != "direct" by { assert "block"[0] == 'b'; }
    assert OutboundTags(cfg.outbounds) == ["block", "direct"];
    assert InboundTags(cfg.inbounds) ==
           if enabled then [InboundTag("s"), InboundTag("t"), API_TAG] else [InboundTag("t"), API_TAG];
    hide BoxConfig;
    FewApart("block", "direct");
    FewApart(InboundTag("t"), API_TAG);
    ThreeApart(InboundTag("s"), InboundTag("t"), API_TAG);
  }

  lemma FewApart(t0: string, t1: string)
    requires t0 != t1 && t0 != "" && t1 != ""
    ensures Addressable([t0, t1])
  {
  }

  lemma ThreeApart(t0: string, t1: string, t2: string)
    requires t0 != t1 && t0 != t2 && t1 != t2 && t0 != "" && t1 != "" && t2 != ""
    ensures Addressable([t0, t1, t2])
  {
  }

  lemma BoxTagged(enabled: bool, user: string, password: string)
    ensures TaggedAs((if enabled then [Changing(user, password)] else []) + Staying(),
                     BoxLive(enabled, user, password).inbounds)
  {
    hide InboundTag, Addressable, InboundsByTag, OutboundsByTag, CredsOf, Changing, Staying;
    BoxAddressable(enabled, user, password);
    DecompositionIs(BoxConfig(enabled, user, password));
  }

  function BoxLive(enabled: bool, user: string, password: string): LiveConfig {
    Decomposition(BoxConfig(enabled, user, password))
  }

  function BoxPlan(u: (string, string), enabled: bool, v: (string, string)): Plan {
    var was, want := BoxLive(true, u.0, u.1), BoxLive(enabled, v.0, v.1);
    Live([], [], [InboundTag("s")], if enabled then [InboundTag("s")] else [], was.routing != want.routing,
         map t | t in was.outbounds :: was.outbounds[t].dialer)
  }

  // Changing or disabling that inbound applies live as long as the text of its
  // account, if it has one, stays.
  lemma BoxTransition(u: (string, string), enabled: bool, v: (string, string))
    requires !enabled || Changing(u.0, u.1) != Changing(v.0, v.1)
    requires u.0 != "" ==> enabled && v.0 != "" && u.0 + ":" + u.1 == v.0 + ":" + v.1
    ensures Transition(BoxConfig(true, u.0, u.1), BoxConfig(enabled, v.0, v.1), BoxLive(true, u.0, u.1),
                       BoxLive(enabled, v.0, v.1), BoxPlan(u, enabled, v))
  {
    BoxAddressable(true, u.0, u.1);
    BoxAddressable(enabled, v.0, v.1);
    DecompositionIs(BoxConfig(true, u.0, u.1));
    DecompositionIs(BoxConfig(enabled, v.0, v.1));
    BoxUnrevoked(u, enabled, v);
    BoxPlanned(u, enabled, v);
    hide InboundTag, Decomposes, Addressable, SomeRevoked, IsLivePlan, BoxPlan, InboundsByTag, OutboundsByTag, CredsOf;
  }

  lemma BoxPlanned(u: (string, string), enabled: bool, v: (string, string))
    requires !enabled || Changing(u.0, u.1) != Changing(v.0, v.1)
    ensures IsLivePlan(BoxPlan(u, enabled, v), BoxLive(true, u.0, u.1), BoxLive(enabled, v.0, v.1))
  {
    var was, want := BoxLive(true, u.0, u.1), BoxLive(enabled, v.0, v.1);
    BoxSwap(u, enabled, v);
    hide InboundTag, BoxConfig, Changing, CredsOf, Outdated, Missing, IsLivePlan, InboundsByTag, OutboundsByTag;
    assert was.outbounds == want.outbounds by { BoxOutbounds(u, enabled, v); }
    InboundPlan(was, want, InboundTag("s"), enabled);
  }

  lemma BoxOutbounds(u: (string, string), enabled: bool, v: (string, string))
    ensures BoxLive(true, u.0, u.1).outbounds == BoxLive(enabled, v.0, v.1).outbounds
  {
    hide InboundTag, CredsOf, InboundsByTag, OutboundsByTag;
  }

  lemma BoxSwap(u: (string, string), enabled: bool, v: (string, string))
    requires !enabled || Changing(u.0, u.1) != Changing(v.0, v.1)
    ensures var was, want := BoxLive(true, u.0, u.1).inbounds, BoxLive(enabled, v.0, v.1).inbounds;
            Outdated(was, want) == {InboundTag("s")} &&
            Missing(was, want) == if enabled then {InboundTag("s")} else {}
  {
    StayingElsewhere();
    BoxTagged(true, u.0, u.1);
    BoxTagged(enabled, v.0, v.1);
    assert Changing(u.0, u.1).tag == InboundTag("s") == Changing(v.0, v.1).tag;
    hide InboundTag, Staying, Outdated, Missing, BoxLive, TaggedAs, Changing;
    OneSwapped(Changing(u.0, u.1), enabled, Changing(v.0, v.1), Staying(), BoxLive(true, u.0, u.1).inbounds,
               BoxLive(enabled, v.0, v.1).inbounds);
  }

  lemma StayingElsewhere()
    ensures forall b :: b in Staying() ==> b.tag != InboundTag("s")
  {
    BoxTags();
    hide InboundTag, IsSlotInTag;
  }

  ghost predicate TaggedAs(bs: seq<Inbound>, ins: map<string, Inbound>) {
    && (forall t :: t in ins ==> ins[t] in bs && ins[t].tag == t)
    && (forall b :: b in bs ==> b.tag in ins && ins[b.tag] == b)
  }

  // Two lists of inbounds that differ in their first one.
  lemma OneSwapped(x: Inbound, again: bool, y: Inbound, rest: seq<Inbound>, was: map<string, Inbound>,
                   want: map<string, Inbound>)
    requires x.tag == y.tag && (again ==> x != y) && (forall b :: b in rest ==> b.tag != x.tag)
    requires TaggedAs([x] + rest, was) && TaggedAs((if again then [y] else []) + rest, want)
    ensures Outdated(was, want) == {x.tag} && Missing(was, want) == if again then {x.tag} else {}
  {
    var bs, cs := [x] + rest, (if again then [y] else []) + rest;
    assert bs[0] == x;
    assert forall b :: b in bs <==> b == x || b in rest;
    assert forall b :: b in cs <==> (again && b == y) || b in rest;
    forall t | t in was && t != x.tag ensures t in want && want[t] == was[t] { assert was[t] in rest; }
    forall t | t in want && t != x.tag ensures t in was && was[t] == want[t] { assert want[t] in rest; }
  }

  lemma InboundPlan(was: LiveConfig, want: LiveConfig, t: string, again: bool)
    requires was.outbounds == want.outbounds && Outdated(was.inbounds, want.inbounds) == {t}
    requires Missing(was.inbounds, want.inbounds) == if again then {t} else {}
    ensures IsLivePlan(Live([], [], [t], if again then [t] else [], was.routing != want.routing,
                            map o | o in was.outbounds :: was.outbounds[o].dialer), was, want)
  {
    SameOutbounds(was, want);
    hide Outdated, Missing, TakenDown, Merged, KeyOrder;
    assert Elems([t]) == {t} && Elems<string>([]) == {};
  }

  lemma SameOutbounds(was: LiveConfig, want: LiveConfig)
    requires was.outbounds == want.outbounds
    ensures Outdated(was.outbounds, want.outbounds) == {} == Missing(was.outbounds, want.outbounds)
    ensures TakenDown(was, want) == {}
    ensures Merged(was, want) == map t | t in was.outbounds :: was.outbounds[t].dialer
  {
  }

  lemma BoxUnrevoked(u: (string, string), enabled: bool, v: (string, string))
    requires u.0 != "" ==> enabled && v.0 != "" && u.0 + ":" + u.1 == v.0 + ":" + v.1
    ensures !SomeRevoked(BoxLive(true, u.0, u.1).creds, BoxLive(enabled, v.0, v.1).creds)
  {
    BoxTagged(true, u.0, u.1);
    BoxTagged(enabled, v.0, v.1);
    SocksTexts("s", 1080, u.0, u.1);
    SocksTexts("s", 1080, v.0, v.1);
    assert Changing(u.0, u.1).tag == Changing(v.0, v.1).tag;
    assert BoxLive(true, u.0, u.1).creds == CredsOf(BoxLive(true, u.0, u.1).inbounds);
    assert BoxLive(enabled, v.0, v.1).creds == CredsOf(BoxLive(enabled, v.0, v.1).inbounds);
    assert CredTexts(Changing(u.0, u.1)) <= if enabled then CredTexts(Changing(v.0, v.1)) else {};
    hide InboundTag, Staying, CredTexts, BoxLive, TaggedAs, Changing, CredsOf, SomeRevoked;
    NoneRevoked(Changing(u.0, u.1), enabled, Changing(v.0, v.1), Staying(), BoxLive(true, u.0, u.1).inbounds,
                BoxLive(enabled, v.0, v.1).inbounds);
  }

  lemma NoneRevoked(x: Inbound, again: bool, y: Inbound, rest: seq<Inbound>, was: map<string, Inbound>,
                    want: map<string, Inbound>)
    requires TaggedAs([x] + rest, was) && TaggedAs((if again then [y] else []) + rest, want)
    requires x.tag == y.tag && CredTexts(x) <= if again then CredTexts(y) else {}
    ensures !SomeRevoked(CredsOf(was), CredsOf(want))
  {
    var bs, cs := [x] + rest, (if again then [y] else []) + rest;
    hide CredTexts;
    assert forall b :: b in bs <==> b == x || b in rest;
    assert again ==> cs[0] == y;
    forall t | t in CredsOf(was) ensures !Revokes(CredsOf(was), CredsOf(want), t) {
      if was[t] in rest { assert was[t] in cs; }
    }
  }

  lemma SocksTexts(name: string, port: nat, user: string, password: string)
    ensures var b := SocksInbound(name, port, user, password);
            && CredTexts(b) == (if user != "" then {SocksText(user + ":" + password)} else {})
            && Credentials(b) == (if user != "" then {SocksCred(user, password)} else {})
  {
    hide InboundTag;
    var b := SocksInbound(name, port, user, password);
    if user != "" {
      assert b.accounts[0] == Account(user, password);
      assert Credentials(b) == {SocksCred(user, password)};
      assert TextOf(SocksCred(user, password)) == SocksText(user + ":" + password);
    } else {
      assert Credentials(b) == {};
    }
  }

  // The change applies live on a running box: the supervisor neither stops nor
  // restarts xray, and the session, accepted before and not after, stays.
  ghost predicate Strands(before: Inputs, after: Inputs, s: Session) {
    && Compilation(before).Ok? && Compilation(after).Ok?
    && var from, to := Compilation(before).value, Compilation(after).value;
       && AnyListening(after.inbounds) && Accepts(from, s) && !Accepts(to, s)
       && exists a: Attempt, w: World, w': World ::
         && a.cfg == to && a.during == {} && w.running == Some(from) && Authorised(w) && s in w.sessions
         && Step(w, Reconcile(a), w') && w'.running == Some(to) && s in w'.sessions && w'.restarts == w.restarts
  }

  lemma AppliedStrands(before: Inputs, after: Inputs, was: LiveConfig, want: LiveConfig, p: Plan, s: Session)
    requires Compilation(before).Ok? && Compilation(after).Ok? && AnyListening(after.inbounds)
    requires Transition(Compilation(before).value, Compilation(after).value, was, want, p)
    requires Accepts(Compilation(before).value, s) && !Accepts(Compilation(after).value, s)
    ensures Strands(before, after, s)
  {
    CompiledRoutable(after);
    hide Compilation, Transition, Calls, Accepts, AnyListening, Routable, AppliesLive;
    var from, to := Compilation(before).value, Compilation(after).value;
    var a, w, w' := LiveStep(from, to, was, want, p, s);
  }

  // The step the supervisor takes.
  lemma LiveStep(from: Config, to: Config, was: LiveConfig, want: LiveConfig, p: Plan, s: Session)
    returns (a: Attempt, w: World, w': World)
    requires Transition(from, to, was, want, p) && Routable(to) && Accepts(from, s) && !Accepts(to, s)
    ensures a.cfg == to && a.during == {} && w.running == Some(from) && Authorised(w) && s in w.sessions
    ensures Step(w, Reconcile(a), w') && w'.running == Some(to) && s in w'.sessions && w'.restarts == w.restarts
  {
    hide Decomposes, NeedsRestart, IsLivePlan, AddressableConfig, Calls, Accepts, Routable, AcceptedMidway;
    a := Attempt(to, true, true, |Calls(p, was, want)|, {});
    w := World(Some(from), Some(from), {s}, 0, 0);
    w' := World(Some(to), Some(to), {s}, 0, 1);
    assert AppliesLive(from, a);
    hide AppliesLive;
    assert w.sessions + a.during == {s};
  }

  // A respelled account: the change applies live, and whoever logged in as the
  // old account stays.
  lemma RespelledAccountUnseen(user: string, password: string, user': string, password': string)
    requires user != "" && user' != "" && user != user' && user + ":" + password == user' + ":" + password'
    ensures Strands(Box(true, user, password), Box(true, user', password'),
                    Session(InboundTag("s"), Known(SocksCred(user, password))))
  {
    var s := Session(InboundTag("s"), Known(SocksCred(user, password)));
    BoxTransition((user, password), true, (user', password'));
    BoxStrands((user, password), true, (user', password'), s);
  }

  // Such an account: the user a:b with password c, turned into a with password b:c.
  lemma ColonInUser()
    ensures exists s :: Strands(Box(true, "a:b", "c"), Box(true, "a", "b:c"), s)
  {
    hide Box, Strands;
    assert |"a:b"| == 3 && |"a"| == 1;
    assert "a:b" + ":" + "c" == "a" + ":" + "b:c";
    RespelledAccountUnseen("a:b", "c", "a", "b:c");
  }

  // An open inbound: disabling it, or giving it a user, applies live too while
  // another one listens, and whoever is connected through it stays.
  lemma ClosedInboundUnseen(unused: string, enabled: bool, user: string, password: string)
    requires !enabled || user != ""
    ensures Strands(Box(true, "", unused), Box(enabled, user, password), Session(InboundTag("s"), Anonymous))
  {
    BoxTransition(("", unused), enabled, (user, password));
    BoxStrands(("", unused), enabled, (user, password), Session(InboundTag("s"), Anonymous));
  }

  lemma BoxStrands(u: (string, string), enabled: bool, v: (string, string), s: Session)
    requires Transition(BoxConfig(true, u.0, u.1), BoxConfig(enabled, v.0, v.1), BoxLive(true, u.0, u.1),
                        BoxLive(enabled, v.0, v.1), BoxPlan(u, enabled, v))
    requires s == Session(InboundTag("s"), if u.0 == "" then Anonymous else Known(SocksCred(u.0, u.1)))
    requires enabled ==> v.0 != "" && u.0 != v.0
    ensures Strands(Box(true, u.0, u.1), Box(enabled, v.0, v.1), s)
  {
    BoxCompiled(true, u.0, u.1);
    BoxCompiled(enabled, v.0, v.1);
    SocksAdmits(true, u.0, u.1, s.login);
    SocksAdmits(enabled, v.0, v.1, s.login);
    BuiltSocks("t", 1081, true, "", "");
    assert Socks("t", 1081, true, "", "") in Box(enabled, v.0, v.1).inbounds;
    hide Transition, Accepts, BoxConfig, BoxLive, BoxPlan, Compilation, Listening, Strands, Socks, InboundTag;
    AppliedStrands(Box(true, u.0, u.1), Box(enabled, v.0, v.1), BoxLive(true, u.0, u.1), BoxLive(enabled, v.0, v.1),
                   BoxPlan(u, enabled, v), s);
  }

  lemma SocksAdmits(enabled: bool, user: string, password: string, login: Login)
    ensures Accepts(BoxConfig(enabled, user, password), Session(InboundTag("s"), login)) <==>
            enabled && login == if user == "" then Anonymous else Known(SocksCred(user, password))
  {
    BoxTags();
    StayingElsewhere();
    SocksTexts("s", 1080, user, password);
    hide InboundTag, Credentials, IsSlotInTag, Staying;
    var x, bs := Changing(user, password), BoxConfig(enabled, user, password).inbounds;
    assert forall b :: b in bs <==> b in Staying() || (enabled && b == x);
    assert user != "" ==> x.accounts[0] == Account(user, password);
    hide BoxConfig;
  }

  // ---- uniqueness: what a change comes down to does not depend on how it is worked out ---

  lemma DecomposesUnique(cfg: Config, a: LiveConfig, b: LiveConfig)
    requires Decomposes(cfg, a) && Decomposes(cfg, b)
    ensures a == b
  {
    forall t | t in a.outbounds ensures t in b.outbounds && a.outbounds[t] == b.outbounds[t] { }
    forall t | t in b.outbounds ensures t in a.outbounds { }
    forall t | t in a.inbounds ensures t in b.inbounds && a.inbounds[t] == b.inbounds[t] { }
    forall t | t in b.inbounds ensures t in a.inbounds { }
    assert a.outbounds == b.outbounds && a.inbounds == b.inbounds;
  }

  lemma PlanUnique(p: Plan, q: Plan, was: LiveConfig, want: LiveConfig)
    requires IsLivePlan(p, was, want) && IsLivePlan(q, was, want)
    ensures p == q
  {
    SameTags(p.rmOut, q.rmOut);
    SameTags(p.addOut, q.addOut);
    SameTags(p.rmIn, q.rmIn);
    SameTags(p.addIn, q.addIn);
  }

  lemma SameTags(a: seq<string>, b: seq<string>)
    requires Sorted(KeyOrder(), a) && Sorted(KeyOrder(), b) && Elems(a) == Elems(b)
    ensures a == b
  {
    SortedDistinct(a);
    SortedDistinct(b);
    KeyOrderTotal(Elems(a));
    SortedUnique(KeyOrder(), a, b);
  }

  // Once worked out, the answer to "does it apply live" is settled.
  lemma LiveDecided(from: Config, a: Attempt, was: LiveConfig, want: LiveConfig, p: Plan)
    requires Transition(from, a.cfg, was, want, p)
    ensures AppliesLive(from, a) <==> Calls(p, was, want) == [] || (a.ready && a.answers >= |Calls(p, was, want)|)
  {
    hide IsLivePlan, NeedsRestart, Calls, Decomposes;
    forall was', want', p' | Transition(from, a.cfg, was', want', p') ensures was' == was && want' == want && p' == p {
      DecomposesUnique(from, was, was');
      DecomposesUnique(a.cfg, want, want');
      PlanUnique(p, p', was, want);
    }
  }

  lemma LiveRefused(from: Config, a: Attempt, was: LiveConfig, want: LiveConfig)
    requires Decomposes(from, was) && Decomposes(a.cfg, want) && NeedsRestart(was, want)
    ensures !AppliesLive(from, a)
  {
    hide IsLivePlan, NeedsRestart, Calls, Decomposes;
    forall was', want', p' ensures !Transition(from, a.cfg, was', want', p') {
      if Transition(from, a.cfg, was', want', p') {
        DecomposesUnique(from, was, was');
        DecomposesUnique(a.cfg, want, want');
        assert false;
      }
    }
  }

  // No api call changes a logging or observatory setting, or which outbound is
  // the default: a change applies live only if the two configs agree on those.
  lemma LiveAgrees(from: Config, a: Attempt)
    requires AppliesLive(from, a)
    ensures from.fixed == a.cfg.fixed && DefaultOf(from) == DefaultOf(a.cfg)
  {
    hide IsLivePlan, Calls;
  }

  function DefaultOf(cfg: Config): string {
    if cfg.outbounds == [] then "" else cfg.outbounds[0].tag
  }

  // What a live apply that succeeds leaves running is the whole new config: the
  // calls that were made turn the old one's process into the new one's.
  lemma LiveReaches(from: Config, a: Attempt, was: LiveConfig, want: LiveConfig, p: Plan)
    requires AppliesLive(from, a) && Decomposes(from, was) && Decomposes(a.cfg, want) && IsLivePlan(p, was, want)
    ensures Calls(p, was, want) == [] || (a.ready && a.answers >= |Calls(p, was, want)|)
    ensures Run(Running(was), Calls(p, was, want)) == Running(want)
    ensures Running(want).fixed == a.cfg.fixed == from.fixed && Running(want).default == DefaultOf(a.cfg)
  {
    LiveAgrees(from, a);
    TaggedDecomposed(a.cfg, want);
    LiveApplyConverges(p, was, want);
    hide IsLivePlan, NeedsRestart, Calls, AddressableConfig;
    var was', want', p' :| Transition(from, a.cfg, was', want', p');
    DecomposesUnique(from, was, was');
    DecomposesUnique(a.cfg, want, want');
    PlanUnique(p, p', was, want);
    hide Decomposes;
    assert Transition(from, a.cfg, was, want, p);
    LiveDecided(from, a, was, want, p);
  }

  // Every account and client let in before has one with the same text after.
  predicate TextsKept(from: Config, to: Config) {
    forall b, c :: b in from.inbounds && !IsSlotInTag(b.tag) && c in Credentials(b) ==> TextKept(to, b, c)
  }

  predicate TextKept(to: Config, b: Inbound, c: Cred) {
    exists d, e :: d in to.inbounds && d.tag == b.tag && e in Credentials(d) && TextOf(e) == TextOf(c)
  }

  // A change applies live exactly when the calls lead to the whole new config,
  // no credential loses its text, and the api is there for as many calls as it takes.
  lemma AppliesLiveIff(from: Config, a: Attempt, was: LiveConfig, want: LiveConfig, p: Plan)
    requires AddressableConfig(from) && AddressableConfig(a.cfg)
    requires Decomposes(from, was) && Decomposes(a.cfg, want) && IsLivePlan(p, was, want)
    ensures AppliesLive(from, a) <==>
            && Run(Running(was), Calls(p, was, want)) == Running(want) && TextsKept(from, a.cfg)
            && (Calls(p, was, want) == [] || (a.ready && a.answers >= |Calls(p, was, want)|))
  {
    TaggedDecomposed(a.cfg, want);
    LiveApplyConverges(p, was, want);
    RevokedIff(from, a.cfg, was, want);
    if NeedsRestart(was, want) {
      LiveRefused(from, a, was, want);
    } else {
      LiveDecided(from, a, was, want, p);
    }
    hide IsLivePlan, Calls, AddressableConfig, Decomposes, TextsKept, AppliesLive, SomeRevoked;
  }

  lemma RevokedIff(from: Config, to: Config, was: LiveConfig, want: LiveConfig)
    requires Decomposes(from, was) && Decomposes(to, want)
    ensures SomeRevoked(was.creds, want.creds) <==> !TextsKept(from, to)
  {
    if SomeRevoked(was.creds, want.creds) {
      RevokedLost(from, to, was, want);
    } else {
      forall b, c | b in from.inbounds && !IsSlotInTag(b.tag) && c in Credentials(b) ensures TextKept(to, b, c) {
        assert was.inbounds[b.tag] == b && TextOf(c) in was.creds[b.tag];
        assert !Revokes(was.creds, want.creds, b.tag);
        var d := want.inbounds[b.tag];
        var e :| e in Credentials(d) && TextOf(e) == TextOf(c);
        assert d in to.inbounds && d.tag == b.tag;
      }
    }
  }

  lemma RevokedLost(from: Config, to: Config, was: LiveConfig, want: LiveConfig)
    requires Decomposes(from, was) && Decomposes(to, want) && SomeRevoked(was.creds, want.creds)
    ensures !TextsKept(from, to)
  {
    hide Credentials, IsSlotInTag;
    var t :| t in was.creds && Revokes(was.creds, want.creds, t);
    var text :| text in was.creds[t] && !(t in want.creds && text in want.creds[t]);
    var b := was.inbounds[t];
    assert was.creds[t] == CredTexts(b);
    var c :| c in Credentials(b) && TextOf(c) == text;
    assert b in from.inbounds && !IsSlotInTag(b.tag);
    forall d, e | d in to.inbounds && d.tag == b.tag && e in Credentials(d) ensures TextOf(e) != TextOf(c) {
      assert want.inbounds[t] == d && TextOf(e) in CredTexts(d);
    }
    assert !TextKept(to, b, c);
  }

  lemma LiveUnaddressable(from: Config, a: Attempt)
    requires !AddressableConfig(from) || !AddressableConfig(a.cfg)
    ensures !AppliesLive(from, a)
  {
  }

  // ---- the supervisor ----------------------------------------------------------------------

  class Supervisor {
    var running: Option<Config>
    var file: Option<Config>
    ghost var sessions: set<Session>
    var restarts: nat
    var liveApplies: nat

    constructor ()
      ensures Now() == BOOT
    {
      running, file, sessions, restarts, liveApplies := None, None, {}, 0, 0;
    }

    ghost function Now(): World
      reads this
    {
      World(running, file, sessions, restarts, liveApplies)
    }

    // Tries to bring the running process to the new config without a restart.
    method TryLive(from: Config, a: Attempt) returns (ok: bool)
      modifies this`liveApplies
      ensures ok == AppliesLive(from, a)
      ensures ok ==> from.fixed == a.cfg.fixed && DefaultOf(from) == DefaultOf(a.cfg)
      ensures !ok ==> liveApplies == old(liveApplies)
    {
      if AppliesLive(from, a) { LiveAgrees(from, a); }
      hide AppliesLive, IsLivePlan, NeedsRestart, Decomposes, Calls;
      assert AddressableConfig(from) <==>
            Addressable(OutboundTags(from.outbounds)) && Addressable(InboundTags(from.inbounds));
      var was := ParseLiveConfig(from);
      if was.Err? {
        LiveUnaddressable(from, a);
        return false;
      }
      var want := ParseLiveConfig(a.cfg);
      if want.Err? {
        LiveUnaddressable(from, a);
        return false;
      }
      var plan := PlanLive(was.value, want.value);
      if plan.Restart? {
        LiveRefused(from, a, was.value, want.value);
        return false;
      }
      LiveDecided(from, a, was.value, want.value, plan);
      var calls := CallList(plan, want.value, was.value);
      if calls == [] { return true; }
      if !a.ready { return false; }
      var x := new Xray(Running(was.value), a.answers);
      TaggedDecomposed(a.cfg, want.value);
      ok := ApplyLive(x, plan, want.value, was.value);
      if ok { liveApplies := liveApplies + 1; }
    }

    method ApplyLocked(a: Attempt)
      requires running.Some? ==> file == running
      requires running.Some? && AppliesLive(running.value, a) ==>
                 forall s :: s in a.during ==> AcceptedMidway(running.value, a.cfg, s)
      modifies this
      ensures ApplyStep(old(Now()), a, Now())
      ensures Routable(a.cfg) && a.writeOk ==> running == file == Some(a.cfg)
      ensures Routable(a.cfg) && !a.writeOk ==> running == old(running) && file == old(file)
      ensures !Routable(a.cfg) ==> running == None && file == old(file)
    {
      hide AppliesLive, AcceptedMidway, Routable;
      if !Routable(a.cfg) {
        running, sessions := None, {};
        return;
      }
      if running == Some(a.cfg) { return; }
      if !a.writeOk { return; }
      file := Some(a.cfg);
      if running.None? {
        sessions := {};
      } else {
        var live := TryLive(running.value, a);
        if live {
          sessions := sessions + a.during;
        } else {
          restarts := restarts + 1;
          sessions := {};
        }
      }
      running := Some(a.cfg);
    }
  }

  lemma TaggedDecomposed(cfg: Config, lc: LiveConfig)
    requires Decomposes(cfg, lc)
    ensures Tagged(lc)
  {
  }
}
