// Diffing two configs into the api work that turns one into the other
// (daemon/xray_live.go: parseLiveConfig, planLive, diffTagged).
module LivePlan {
  import opened Wrappers
  import opened Text
  import opened Sorting
  import opened Tags
  import opened XrayConfig

  // A credential a client logs in with, and the text a config's credentials are
  // compared by: an account's user and password run together.
  datatype Cred = ClientCred(id: UserId, password: string, auth: string) | SocksCred(user: string, pass: string)

  datatype CredText = ClientText(id: UserId, password: string, auth: string) | SocksText(text: string)

  // A config decomposed into the units the api replaces independently.
  datatype LiveConfig = LiveConfig(
    fixed: Fixed, inbounds: map<string, Inbound>, outbounds: map<string, Outbound>,
    creds: map<string, set<CredText>>, firstOut: string, routing: Routing)

  datatype Why = FixedChanged | DefaultChanged | Revoked(tag: string)

  // dialerOf: every outbound's dialer, the wanted one where it has one.
  datatype Plan =
    | Restart(why: Why)
    | Live(rmOut: seq<string>, addOut: seq<string>, rmIn: seq<string>, addIn: seq<string>,
           routing: bool, dialerOf: map<string, string>)

  // ---- decomposing a config ---------------------------------------------------

  predicate IsSlotInTag(t: string) {
    |t| >= 8 && t[..4] == "slot" && t[|t| - 3..] == "-in" && forall i :: 4 <= i < |t| - 3 ==> '0' <= t[i] <= '9'
  }

  lemma SlotInTagMatches(idx: nat)
    ensures IsSlotInTag(SlotInTag(idx))
  {
    ItoaDigits(idx);
    var t := SlotInTag(idx);
    assert t == "slot" + Itoa(idx) + "-in";
    assert t[..4] == "slot" && t[|t| - 3..] == "-in";
    forall i | 4 <= i < |t| - 3
      ensures '0' <= t[i] <= '9'
    {
      assert t[i] == Itoa(idx)[i - 4] && Itoa(idx)[i - 4] in Itoa(idx);
    }
  }

  function Credentials(b: Inbound): set<Cred> {
    (set c | c in b.clients :: ClientCred(c.id, c.password, c.auth)) +
    (set a | a in b.accounts :: SocksCred(a.user, a.pass))
  }

  function TextOf(c: Cred): CredText {
    match c
    case ClientCred(id, password, auth) => ClientText(id, password, auth)
    case SocksCred(user, pass) => SocksText(user + ":" + pass)
  }

  function CredTexts(b: Inbound): set<CredText> {
    set c | c in Credentials(b) :: TextOf(c)
  }

  // Tags the api can address: present and distinct.
  predicate Addressable(tags: seq<string>) {
    Distinct(tags) && "" !in tags
  }

  function InboundTags(bs: seq<Inbound>): (ts: seq<string>)
    ensures |ts| == |bs| && forall i :: 0 <= i < |bs| ==> ts[i] == bs[i].tag
  {
    seq(|bs|, i requires 0 <= i < |bs| => bs[i].tag)
  }

  function OutboundTags(os: seq<Outbound>): (ts: seq<string>)
    ensures |ts| == |os| && forall i :: 0 <= i < |os| ==> ts[i] == os[i].tag
  {
    seq(|os|, i requires 0 <= i < |os| => os[i].tag)
  }

  // lc is the decomposition of cfg.
  predicate Decomposes(cfg: Config, lc: LiveConfig) {
    && lc.fixed == cfg.fixed && lc.routing == cfg.routing
    && (forall t :: t in lc.outbounds ==> lc.outbounds[t] in cfg.outbounds && lc.outbounds[t].tag == t)
    && (forall o :: o in cfg.outbounds ==> o.tag in lc.outbounds && lc.outbounds[o.tag] == o)
    && (forall t :: t in lc.inbounds ==> lc.inbounds[t] in cfg.inbounds && lc.inbounds[t].tag == t)
    && (forall b :: b in cfg.inbounds ==> b.tag in lc.inbounds && lc.inbounds[b.tag] == b)
    && lc.firstOut == (if cfg.outbounds == [] then "" else cfg.outbounds[0].tag)
    && lc.creds == CredsOf(lc.inbounds)
  }

  // A slot inbound's clients are the config's own hops: no one outside holds them.
  function CredsOf(inbounds: map<string, Inbound>): map<string, set<CredText>> {
    map t | t in inbounds && !IsSlotInTag(t) :: CredTexts(inbounds[t])
  }

  function InboundsByTag(bs: seq<Inbound>): map<string, Inbound> {
    if bs == [] then map[] else InboundsByTag(bs[..|bs| - 1])[bs[|bs| - 1].tag := bs[|bs| - 1]]
  }

  function OutboundsByTag(os: seq<Outbound>): map<string, Outbound> {
    if os == [] then map[] else OutboundsByTag(os[..|os| - 1])[os[|os| - 1].tag := os[|os| - 1]]
  }

  function Decomposition(cfg: Config): LiveConfig {
    var ins := InboundsByTag(cfg.inbounds);
    LiveConfig(cfg.fixed, ins, OutboundsByTag(cfg.outbounds), CredsOf(ins),
               if cfg.outbounds == [] then "" else cfg.outbounds[0].tag, cfg.routing)
  }

  lemma {:induction false} InboundsTagged(bs: seq<Inbound>)
    requires Distinct(InboundTags(bs))
    ensures forall t :: t in InboundsByTag(bs) ==> InboundsByTag(bs)[t] in bs && InboundsByTag(bs)[t].tag == t
    ensures forall b :: b in bs ==> b.tag in InboundsByTag(bs) && InboundsByTag(bs)[b.tag] == b
  {
    if bs != [] {
      InboundTagsInit(bs);
      hide InboundTags, Distinct;
      InboundsTagged(bs[..|bs| - 1]);
      assert bs == bs[..|bs| - 1] + [bs[|bs| - 1]];
    }
  }

  lemma InboundTagsInit(bs: seq<Inbound>)
    requires bs != [] && Distinct(InboundTags(bs))
    ensures Distinct(InboundTags(bs[..|bs| - 1]))
    ensures forall b :: b in bs[..|bs| - 1] ==> b.tag != bs[|bs| - 1].tag
  {
    var init, ts := bs[..|bs| - 1], InboundTags(bs);
    assert InboundTags(init) == ts[..|bs| - 1];
    forall b | b in init ensures b.tag != bs[|bs| - 1].tag {
      var i :| 0 <= i < |init| && init[i] == b;
      assert ts[i] != ts[|bs| - 1];
    }
  }

  lemma {:induction false} OutboundsTagged(os: seq<Outbound>)
    requires Distinct(OutboundTags(os))
    ensures forall t :: t in OutboundsByTag(os) ==> OutboundsByTag(os)[t] in os && OutboundsByTag(os)[t].tag == t
    ensures forall o :: o in os ==> o.tag in OutboundsByTag(os) && OutboundsByTag(os)[o.tag] == o
  {
    if os != [] {
      OutboundTagsInit(os);
      hide OutboundTags, Distinct;
      OutboundsTagged(os[..|os| - 1]);
      assert os == os[..|os| - 1] + [os[|os| - 1]];
    }
  }

  lemma OutboundTagsInit(os: seq<Outbound>)
    requires os != [] && Distinct(OutboundTags(os))
    ensures Distinct(OutboundTags(os[..|os| - 1]))
    ensures forall o :: o in os[..|os| - 1] ==> o.tag != os[|os| - 1].tag
  {
    var init, ts := os[..|os| - 1], OutboundTags(os);
    assert OutboundTags(init) == ts[..|os| - 1];
    forall o | o in init ensures o.tag != os[|os| - 1].tag {
      var i :| 0 <= i < |init| && init[i] == o;
      assert ts[i] != ts[|os| - 1];
    }
  }

  lemma DecompositionIs(cfg: Config)
    requires Addressable(OutboundTags(cfg.outbounds)) && Addressable(InboundTags(cfg.inbounds))
    ensures Decomposes(cfg, Decomposition(cfg))
  {
    hide InboundsByTag, OutboundsByTag, CredsOf;
    InboundsTagged(cfg.inbounds);
    OutboundsTagged(cfg.outbounds);
  }

  // The tagged objects of a list, unless one has no tag or a taken one.
  method TaggedInbounds(ibs: seq<Inbound>) returns (r: Option<map<string, Inbound>>)
    ensures r.Some? <==> Addressable(InboundTags(ibs))
    ensures r.Some? ==> (forall t :: t in r.value ==> r.value[t] in ibs && r.value[t].tag == t)
    ensures r.Some? ==> (forall b :: b in ibs ==> b.tag in r.value && r.value[b.tag] == b)
  {
    var ins: map<string, Inbound> := map[];
    for i := 0 to |ibs|
      invariant Addressable(InboundTags(ibs[..i]))
      invariant forall t :: t in ins ==> ins[t] in ibs[..i] && ins[t].tag == t
      invariant forall b :: b in ibs[..i] ==> b.tag in ins && ins[b.tag] == b
    {
      var b := ibs[i];
      assert ibs[..i + 1] == ibs[..i] + [b];
      if b.tag == "" {
        assert InboundTags(ibs)[i] == "";
        return None;
      }
      if b.tag in ins {
        var j :| 0 <= j < i && ibs[j] == ins[b.tag];
        assert InboundTags(ibs)[j] == InboundTags(ibs)[i];
        return None;
      }
      assert InboundTags(ibs[..i + 1]) == InboundTags(ibs[..i]) + [b.tag];
      forall j | 0 <= j < i ensures InboundTags(ibs[..i])[j] != b.tag { assert ibs[..i][j] in ibs[..i]; }
      ins := ins[b.tag := b];
    }
    assert ibs[..|ibs|] == ibs;
    r := Some(ins);
  }

  method TaggedOutbounds(obs: seq<Outbound>) returns (r: Option<map<string, Outbound>>)
    ensures r.Some? <==> Addressable(OutboundTags(obs))
    ensures r.Some? ==> (forall t :: t in r.value ==> r.value[t] in obs && r.value[t].tag == t)
    ensures r.Some? ==> (forall o :: o in obs ==> o.tag in r.value && r.value[o.tag] == o)
  {
    var outs: map<string, Outbound> := map[];
    for i := 0 to |obs|
      invariant Addressable(OutboundTags(obs[..i]))
      invariant forall t :: t in outs ==> outs[t] in obs[..i] && outs[t].tag == t
      invariant forall o :: o in obs[..i] ==> o.tag in outs && outs[o.tag] == o
    {
      var o := obs[i];
      assert obs[..i + 1] == obs[..i] + [o];
      if o.tag == "" {
        assert OutboundTags(obs)[i] == "";
        return None;
      }
      if o.tag in outs {
        var j :| 0 <= j < i && obs[j] == outs[o.tag];
        assert OutboundTags(obs)[j] == OutboundTags(obs)[i];
        return None;
      }
      assert OutboundTags(obs[..i + 1]) == OutboundTags(obs[..i]) + [o.tag];
      forall j | 0 <= j < i ensures OutboundTags(obs[..i])[j] != o.tag { assert obs[..i][j] in obs[..i]; }
      outs := outs[o.tag := o];
    }
    assert obs[..|obs|] == obs;
    r := Some(outs);
  }

  method ParseLiveConfig(cfg: Config) returns (r: Result<LiveConfig, string>)
    ensures r.Ok? <==> Addressable(OutboundTags(cfg.outbounds)) && Addressable(InboundTags(cfg.inbounds))
    ensures r.Ok? ==> Decomposes(cfg, r.value)
  {
    hide Addressable;
    var ins := TaggedInbounds(cfg.inbounds);
    if ins.None? { return Err("object without a tag, or duplicate tag"); }
    var outs := TaggedOutbounds(cfg.outbounds);
    if outs.None? { return Err("object without a tag, or duplicate tag"); }
    var first := if cfg.outbounds == [] then "" else cfg.outbounds[0].tag;
    r := Ok(LiveConfig(cfg.fixed, ins.value, outs.value, CredsOf(ins.value), first, cfg.routing));
  }

  // ---- the diff --------------------------------------------------------------------

  // Gone or changed.
  function Outdated<T(==)>(was: map<string, T>, want: map<string, T>): set<string> {
    set t | t in was && (t !in want || want[t] != was[t])
  }

  // New or changed.
  function Missing<T(==)>(was: map<string, T>, want: map<string, T>): set<string> {
    set t | t in want && (t !in was || want[t] != was[t])
  }

  predicate Revokes(was: map<string, set<CredText>>, want: map<string, set<CredText>>, tag: string) {
    tag in was && exists c :: c in was[tag] && !(tag in want && c in want[tag])
  }

  predicate SomeRevoked(was: map<string, set<CredText>>, want: map<string, set<CredText>>) {
    exists t :: t in was && Revokes(was, want, t)
  }

  // Unchanged outbounds whose dialer is replaced or removed.
  function TakenDown(was: LiveConfig, want: LiveConfig): set<string> {
    set t | && t in want.outbounds && t in was.outbounds
            && want.outbounds[t].dialer != "" && want.outbounds[t].dialer in Outdated(was.outbounds, want.outbounds)
            && t !in Outdated(was.outbounds, want.outbounds)
  }

  // The dialers of was, overlaid with the wanted ones of the tags in done.
  function MergedUpTo(was: LiveConfig, want: LiveConfig, done: set<string>): map<string, string>
    requires done <= want.outbounds.Keys
  {
    map t | t in was.outbounds.Keys + done && (t in was.outbounds || want.outbounds[t].dialer != "") ::
      if t in done && want.outbounds[t].dialer != "" then want.outbounds[t].dialer else was.outbounds[t].dialer
  }

  function Merged(was: LiveConfig, want: LiveConfig): map<string, string> {
    MergedUpTo(was, want, want.outbounds.Keys)
  }

  // The plan says exactly what to take down, what to bring up and in which
  // (sorted) order, or which change needs a restart.
  ghost predicate IsLivePlan(p: Plan, was: LiveConfig, want: LiveConfig) {
    && p.Live?
    && Elems(p.rmOut) == Outdated(was.outbounds, want.outbounds) + TakenDown(was, want)
    && Elems(p.addOut) == Missing(was.outbounds, want.outbounds) + TakenDown(was, want)
    && Elems(p.rmIn) == Outdated(was.inbounds, want.inbounds)
    && Elems(p.addIn) == Missing(was.inbounds, want.inbounds)
    && Sorted(KeyOrder(), p.rmOut) && Sorted(KeyOrder(), p.addOut)
    && Sorted(KeyOrder(), p.rmIn) && Sorted(KeyOrder(), p.addIn)
    && p.routing == (was.routing != want.routing)
    && p.dialerOf == Merged(was, want)
  }

  predicate NeedsRestart(was: LiveConfig, want: LiveConfig) {
    was.fixed != want.fixed || was.firstOut != want.firstOut || SomeRevoked(was.creds, want.creds)
  }

  lemma SortTags(s: seq<string>)
    requires Distinct(s)
    ensures Sorted(KeyOrder(), SortBy(KeyOrder(), s)) && Elems(SortBy(KeyOrder(), s)) == Elems(s)
  {
    KeyOrderTotal(Elems(s));
    SortSorts(KeyOrder(), s, Elems(s));
  }

  method DiffTagged<T(==)>(was: map<string, T>, want: map<string, T>) returns (rm: seq<string>, add: seq<string>)
    ensures Elems(rm) == Outdated(was, want) && Sorted(KeyOrder(), rm)
    ensures Elems(add) == Missing(was, want) && Sorted(KeyOrder(), add)
  {
    rm := Collect(was, want);
    add := Collect(want, was);
    assert Missing(was, want) == Outdated(want, was);
    SortTags(rm);
    SortTags(add);
    rm, add := SortBy(KeyOrder(), rm), SortBy(KeyOrder(), add);
  }

  // The tags of a whose object b lacks or holds differently, in any order.
  method Collect<T(==)>(a: map<string, T>, b: map<string, T>) returns (tags: seq<string>)
    ensures Elems(tags) == Outdated(a, b) && Distinct(tags)
  {
    tags := [];
    var todo := a.Keys;
    while todo != {}
      invariant todo <= a.Keys
      invariant Elems(tags) == (set t | t in a.Keys - todo && t in Outdated(a, b)) && Distinct(tags)
      decreases |todo|
    {
      var t :| t in todo;
      todo := todo - {t};
      assert t !in tags by { assert t in tags ==> t in Elems(tags); }
      if t !in b || b[t] != a[t] {
        ElemsConcat(tags, [t]);
        tags := tags + [t];
      }
    }
  }

  method FindRevoked(was: map<string, set<CredText>>, want: map<string, set<CredText>>) returns (r: Option<string>)
    ensures r.Some? ==> Revokes(was, want, r.value)
    ensures r.None? ==> !SomeRevoked(was, want)
  {
    var todo := was.Keys;
    while todo != {}
      invariant todo <= was.Keys
      invariant forall t :: t in was && t !in todo ==> !Revokes(was, want, t)
      decreases |todo|
    {
      var tag :| tag in todo;
      todo := todo - {tag};
      if exists c :: c in was[tag] && !(tag in want && c in want[tag]) {
        return Some(tag);
      }
    }
    return None;
  }

  method MergeDialers(was: LiveConfig, want: LiveConfig) returns (m: map<string, string>)
    ensures m == Merged(was, want)
  {
    hide MergedUpTo;
    m := map t | t in was.outbounds :: was.outbounds[t].dialer;
    var done: set<string> := {};
    MergeStart(was, want);
    while done != want.outbounds.Keys
      invariant done <= want.outbounds.Keys
      invariant m == MergedUpTo(was, want, done)
      decreases |want.outbounds.Keys - done|
    {
      ghost var rest := want.outbounds.Keys - done;
      var t :| t in want.outbounds.Keys - done;
      MergeStep(was, want, done, t);
      done := done + {t};
      assert rest == want.outbounds.Keys - done + {t};
      if want.outbounds[t].dialer != "" { m := m[t := want.outbounds[t].dialer]; }
    }
  }

  lemma MergeStart(was: LiveConfig, want: LiveConfig)
    ensures MergedUpTo(was, want, {}) == map t | t in was.outbounds :: was.outbounds[t].dialer
  {
  }

  lemma MergeStep(was: LiveConfig, want: LiveConfig, done: set<string>, t: string)
    requires done <= want.outbounds.Keys && t in want.outbounds && t !in done
    ensures MergedUpTo(was, want, done + {t}) ==
            if want.outbounds[t].dialer != "" then MergedUpTo(was, want, done)[t := want.outbounds[t].dialer]
            else MergedUpTo(was, want, done)
  {
  }

  method FindTakenDown(was: LiveConfig, want: LiveConfig, gone: set<string>) returns (tags: seq<string>)
    requires gone == Outdated(was.outbounds, want.outbounds)
    ensures Elems(tags) == TakenDown(was, want) && Distinct(tags)
  {
    tags := [];
    var todo := want.outbounds.Keys;
    while todo != {}
      invariant todo <= want.outbounds.Keys
      invariant Elems(tags) == (set t | t in want.outbounds.Keys - todo && t in TakenDown(was, want)) && Distinct(tags)
      decreases |todo|
    {
      var t :| t in todo;
      todo := todo - {t};
      assert t !in tags by { assert t in tags ==> t in Elems(tags); }
      var d := want.outbounds[t].dialer;
      if d == "" || d !in gone || t in gone { continue; }
      if t in was.outbounds {
        ElemsConcat(tags, [t]);
        tags := tags + [t];
      }
    }
  }

  method PlanLive(was: LiveConfig, want: LiveConfig) returns (p: Plan)
    ensures p.Restart? <==> NeedsRestart(was, want)
    ensures p.Restart? ==>
              match p.why
              case FixedChanged => was.fixed != want.fixed
              case DefaultChanged => was.fixed == want.fixed && was.firstOut != want.firstOut
              case Revoked(tag) =>
                was.fixed == want.fixed && was.firstOut == want.firstOut && Revokes(was.creds, want.creds, tag)
    ensures p.Live? ==> IsLivePlan(p, was, want)
  {
    if was.fixed != want.fixed { return Restart(FixedChanged); }
    if was.firstOut != want.firstOut { return Restart(DefaultChanged); }
    var revoked := FindRevoked(was.creds, want.creds);
    if revoked.Some? { return Restart(Revoked(revoked.value)); }
    var dialerOf := MergeDialers(was, want);
    var rmOut, addOut := DiffTagged(was.outbounds, want.outbounds);
    var extra := FindTakenDown(was, want, Elems(rmOut));
    SortedDistinct(rmOut);
    SortedDistinct(addOut);
    JoinTags(rmOut, extra);
    JoinTags(addOut, extra);
    rmOut, addOut := SortBy(KeyOrder(), rmOut + extra), SortBy(KeyOrder(), addOut + extra);
    var rmIn, addIn := DiffTagged(was.inbounds, want.inbounds);
    return Live(rmOut, addOut, rmIn, addIn, was.routing != want.routing, dialerOf);
  }

  lemma JoinTags(a: seq<string>, b: seq<string>)
    requires Distinct(a) && Distinct(b) && Elems(a) !! Elems(b)
    ensures Sorted(KeyOrder(), SortBy(KeyOrder(), a + b)) && Elems(SortBy(KeyOrder(), a + b)) == Elems(a) + Elems(b)
  {
    forall i, j | 0 <= i < j < |a + b| ensures (a + b)[i] != (a + b)[j] {
      assert i < |a| <= j ==> a[i] in Elems(a) && b[j - |a|] in Elems(b);
    }
    ElemsConcat(a, b);
    SortTags(a + b);
  }
}
