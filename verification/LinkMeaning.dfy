// What a share link asks for, and where the outbound it becomes holds it
// (core/xray/link.go: ParseLink, buildStream).
module LinkMeaning {
  import opened Wrappers
  import opened Text
  import opened StreamSettings
  import opened ShareLink

  // ---- whom the outbound calls, and as whom --------------------------------------

  // The one server an outbound lists.
  predicate Lists(ob: Object, list: Key, srv: Object) {
    Field(Obj(Field(ob, Settings)), list) == JArr([JObj(srv)])
  }

  predicate CallsAt(srv: Object, host: string, port: int) {
    Field(srv, Address) == JStr(host) && Field(srv, Port) == JNum(port)
  }

  predicate Signs(srv: Object, user: Object) {
    Field(srv, Users) == JArr([JObj(user)])
  }

  predicate UrlReadable(u: Url) { u.host != "" && (forall c :: c in u.host ==> HostChar(c)) && u.port > 0 }

  predicate Named(p: Parsed, fragment: string, host: string) {
    p.name == if fragment == "" then host else DecodeFragment(fragment)
  }

  // A vless link is read exactly when it names a host, a port and a user; the
  // outbound calls that host on that port as that user, over the stream it asks for.
  lemma VlessSays(u: Url)
    ensures ParseLink(Vless(u)).Ok? <==> UrlReadable(u) && u.user != ""
    ensures ParseLink(Vless(u)).Ok? ==>
              var p := ParseLink(Vless(u)).value;
              && Field(p.outbound, Protocol) == JStr("vless") && Named(p, u.fragment, u.host)
              && Obj(Field(p.outbound, Stream)) == StreamObject(NetOf(u.query), SecOf(u.query))
              && exists srv, user ::
                   && Lists(p.outbound, Vnext, srv) && CallsAt(srv, u.host, u.port) && Signs(srv, user)
                   && Field(user, Id) == JStr(u.user)
                   && Field(user, Encryption) == JStr(if Blank(Get(u.query, PEncryption)) then "none"
                                                      else Get(u.query, PEncryption))
                   && Str(Field(user, Flow)) == Get(u.query, PFlow)
  {
    Readable(u.host);
    VlessAccepted(u);
    hide StreamObject, NetOf, SecOf, DecodeFragment, CallsAt, Lists, Named, ReadableHost, ParseLink;
    if ParseLink(Vless(u)).Ok? { VlessBuilt(u); }
  }

  lemma VlessAccepted(u: Url)
    ensures ParseLink(Vless(u)).Ok? <==> Reachable(u) && u.user != ""
  {
    hide SecOf, NetOf, StreamObject, DecodeFragment, ReadableHost;
  }

  lemma VlessBuilt(u: Url)
    requires ParseLink(Vless(u)).Ok?
    ensures var p := ParseLink(Vless(u)).value;
            && Field(p.outbound, Protocol) == JStr("vless") && Named(p, u.fragment, u.host)
            && Obj(Field(p.outbound, Stream)) == StreamObject(NetOf(u.query), SecOf(u.query))
            && exists srv, user ::
                 && Lists(p.outbound, Vnext, srv) && CallsAt(srv, u.host, u.port) && Signs(srv, user)
                 && Field(user, Id) == JStr(u.user)
                 && Field(user, Encryption) == JStr(if Blank(Get(u.query, PEncryption)) then "none"
                                                    else Get(u.query, PEncryption))
                 && Str(Field(user, Flow)) == Get(u.query, PFlow)
  {
    var user := VlessUser(u.user, OrDefault(Get(u.query, PEncryption), "none"), Get(u.query, PFlow));
    var srv := ServerAt(u.host, u.port, user);
    StreamThere(NetOf(u.query), SecOf(u.query));
    hide StreamObject, NetOf, SecOf, DecodeFragment, Blank, Reachable;
    assert Lists(ParseLink(Vless(u)).value.outbound, Vnext, srv) && Signs(srv, user);
  }

  lemma Readable(h: string)
    ensures ReadableHost(h) <==> h != "" && forall c :: c in h ==> HostChar(c)
  {
    if ReadableHost(h) { assert forall c :: c in h ==> HostChar(c); }
  }

  lemma StreamThere(n: NetFacts, s: SecFacts)
    ensures Network in StreamObject(n, s) && StreamObject(n, s) != map[]
  {
    hide NetName, TlsObject, RealityObject, TransportBlock;
  }

  predicate SaysNoSecurity(q: Query) { ToLower(Get(q, PSecurity)) == "" || ToLower(Get(q, PSecurity)) == "none" }

  // A trojan link, likewise, by its password; its stream is over tls unless the
  // link says reality, and to the host itself if it names no other.
  lemma TrojanSays(u: Url)
    ensures ParseLink(Trojan(u)).Ok? <==> UrlReadable(u) && u.user != ""
    ensures ParseLink(Trojan(u)).Ok? ==>
              var p, plain := ParseLink(Trojan(u)).value, SaysNoSecurity(u.query);
              && Field(p.outbound, Protocol) == JStr("trojan") && Named(p, u.fragment, u.host)
              && Obj(Field(p.outbound, Stream)) ==
                   StreamObject(NetOf(u.query), if plain then TlsOf(u.query, u.host) else SecOf(u.query))
              && exists srv ::
                   && Lists(p.outbound, Servers, srv) && CallsAt(srv, u.host, u.port)
                   && Field(srv, Password) == JStr(u.user)
  {
    Readable(u.host);
    TrojanSecIs(u.query, u.host);
    TrojanAccepted(u);
    hide StreamObject, NetOf, TlsOf, SecOf, TrojanSec, SaysNoSecurity, DecodeFragment, CallsAt, Lists, Named,
         ReadableHost, ParseLink;
    if ParseLink(Trojan(u)).Ok? { TrojanBuilt(u); }
  }

  lemma TrojanBuilt(u: Url)
    requires ParseLink(Trojan(u)).Ok?
    ensures var p := ParseLink(Trojan(u)).value;
            && Field(p.outbound, Protocol) == JStr("trojan") && Named(p, u.fragment, u.host)
            && Obj(Field(p.outbound, Stream)) == StreamObject(NetOf(u.query), TrojanSec(u.query, u.host))
            && exists srv ::
                 && Lists(p.outbound, Servers, srv) && CallsAt(srv, u.host, u.port)
                 && Field(srv, Password) == JStr(u.user)
  {
    var srv := map[Address := JStr(u.host), Port := JNum(u.port), Password := JStr(u.user)];
    StreamThere(NetOf(u.query), TrojanSec(u.query, u.host));
    hide StreamObject, NetOf, TrojanSec, DecodeFragment;
    assert Lists(ParseLink(Trojan(u)).value.outbound, Servers, srv);
  }

  lemma TrojanAccepted(u: Url)
    ensures ParseLink(Trojan(u)).Ok? <==> Reachable(u) && u.user != ""
  {
    hide TrojanSec, NetOf, StreamObject, DecodeFragment, ReadableHost;
  }

  lemma TrojanSecIs(q: Query, host: string)
    ensures TrojanSec(q, host) == if SaysNoSecurity(q) then TlsOf(q, host) else SecOf(q)
  {
    hide SniOf, PinOf, AlpnOf;
    assert |"reality"| == 7 && |"none"| == 4;
  }

  // A hysteria2 link, by its user and password run together; always over tls.
  lemma HysteriaSays(u: Url)
    ensures ParseLink(Hysteria2(u)).Ok? <==> UrlReadable(u) && (u.user != "" || u.password != "")
    ensures ParseLink(Hysteria2(u)).Ok? ==>
              var p := ParseLink(Hysteria2(u)).value;
              var settings, stream := Obj(Field(p.outbound, Settings)), Obj(Field(p.outbound, Stream));
              var tls := Obj(Field(stream, TlsSettings));
              && Field(p.outbound, Protocol) == JStr("hysteria") && Named(p, u.fragment, u.host)
              && CallsAt(settings, u.host, u.port)
              && Field(Obj(Field(stream, HysteriaSettings)), Auth) ==
                   JStr(if u.password == "" then u.user else u.user + ":" + u.password)
              && Field(stream, Security) == JStr("tls")
              && Str(Field(tls, ServerName)) == Get(u.query, PSni)
              && Str(Field(tls, PinnedCert)) == PinOf(u.query) && Str(Field(tls, VerifyName)) == Get(u.query, PVcn)
  {
    Readable(u.host);
    HysteriaAccepted(u);
    hide PinOf, DecodeFragment, ReadableHost, HysteriaAuth, ParseLink, Named, CallsAt;
    if ParseLink(Hysteria2(u)).Ok? { HysteriaBuilt(u); }
  }

  lemma HysteriaAccepted(u: Url)
    ensures ParseLink(Hysteria2(u)).Ok? <==> Reachable(u) && (u.user != "" || u.password != "")
    ensures HysteriaAuth(u) == if u.password == "" then u.user else u.user + ":" + u.password
  {
    hide PinOf, DecodeFragment, ReadableHost;
  }

  lemma HysteriaBuilt(u: Url)
    requires ParseLink(Hysteria2(u)).Ok?
    ensures var p := ParseLink(Hysteria2(u)).value;
            var settings, stream := Obj(Field(p.outbound, Settings)), Obj(Field(p.outbound, Stream));
            var tls := Obj(Field(stream, TlsSettings));
            && Field(p.outbound, Protocol) == JStr("hysteria") && Named(p, u.fragment, u.host)
            && CallsAt(settings, u.host, u.port)
            && Field(Obj(Field(stream, HysteriaSettings)), Auth) == JStr(HysteriaAuth(u))
            && Field(stream, Security) == JStr("tls")
            && Str(Field(tls, ServerName)) == Get(u.query, PSni)
            && Str(Field(tls, PinnedCert)) == PinOf(u.query) && Str(Field(tls, VerifyName)) == Get(u.query, PVcn)
  {
    hide PinOf, DecodeFragment, ReadableHost, HysteriaAuth;
  }

  // A vmess payload, by its own fields; a numeral in text counts as a number.
  lemma VmessSays(v: VMess)
    ensures ParseLink(Vmess(Payload(v))).Ok? <==> v.add != "" && v.id != "" && ToInt(v.port) != 0
    ensures ParseLink(Vmess(Payload(v))).Ok? ==>
              var p := ParseLink(Vmess(Payload(v))).value;
              var stream := Obj(Field(p.outbound, Stream));
              && Field(p.outbound, Protocol) == JStr("vmess") && p.name == (if v.ps == "" then v.add else v.ps)
              && stream == StreamObject(NetOf(VMessQuery(v)), SecOf(VMessQuery(v)))
              && exists srv, user ::
                   && Lists(p.outbound, Vnext, srv) && CallsAt(srv, v.add, ToInt(v.port)) && Signs(srv, user)
                   && Field(user, Id) == JStr(v.id) && Field(user, AlterId) == JNum(ToInt(v.aid))
                   && Field(user, Security) == JStr(if Blank(v.scy) then "auto" else v.scy)
  {
    VmessAccepted(v);
    if ParseLink(Vmess(Payload(v))).Ok? {
      var user := VMessUser(v.id, ToInt(v.aid), OrDefault(v.scy, "auto"));
      var srv := ServerAt(v.add, ToInt(v.port), user);
      var ob := VmessBuilt(v, srv, user);
    }
    hide StreamObject, NetOf, SecOf, ToInt, ParseLink, Blank, VMessQuery, Lists, CallsAt, Signs;
  }

  lemma VmessAccepted(v: VMess)
    ensures ParseLink(Vmess(Payload(v))).Ok? <==> v.add != "" && v.id != "" && ToInt(v.port) != 0
  {
    hide SecOf, NetOf, StreamObject, ToInt;
  }

  lemma VmessBuilt(v: VMess, srv: Object, user: Object) returns (p: Parsed)
    requires ParseLink(Vmess(Payload(v))).Ok?
    requires user == VMessUser(v.id, ToInt(v.aid), OrDefault(v.scy, "auto"))
    requires srv == ServerAt(v.add, ToInt(v.port), user)
    ensures p == ParseLink(Vmess(Payload(v))).value
    ensures Field(p.outbound, Protocol) == JStr("vmess") && p.name == (if v.ps == "" then v.add else v.ps)
    ensures Obj(Field(p.outbound, Stream)) == StreamObject(NetOf(VMessQuery(v)), SecOf(VMessQuery(v)))
    ensures Lists(p.outbound, Vnext, srv) && CallsAt(srv, v.add, ToInt(v.port)) && Signs(srv, user)
    ensures Field(user, Id) == JStr(v.id) && Field(user, AlterId) == JNum(ToInt(v.aid))
    ensures Field(user, Security) == JStr(if Blank(v.scy) then "auto" else v.scy)
  {
    StreamThere(NetOf(VMessQuery(v)), SecOf(VMessQuery(v)));
    hide StreamObject, NetOf, SecOf, ToInt, Blank, VMessQuery;
    p := ParseLink(Vmess(Payload(v))).value;
  }

  lemma VmessOptions(v: VMess)
    ensures var q := VMessQuery(v);
            && Get(q, PType) == v.net && Get(q, PSecurity) == v.tls && Get(q, PHost) == v.host &&
                 Get(q, PPath) == v.path
            && Get(q, PSni) == v.sni && Get(q, PFp) == v.fp && Get(q, PAlpn) == v.alpn && Get(q, PPcs) == v.pcs
            && Get(q, PVcn) == v.vcn && Get(q, PHeaderType) == v.header && Get(q, PServiceName) == v.path
  {
  }

  ghost predicate SsOutbound(p: Parsed, m: string, password: string, host: string, port: int) {
    && Field(p.outbound, Protocol) == JStr("shadowsocks") && Stream !in p.outbound
    && exists srv ::
         && Lists(p.outbound, Servers, srv) && CallsAt(srv, host, port)
         && Field(srv, Method) == JStr(m) && Field(srv, Password) == JStr(password)
  }

  // A shadowsocks link, by the method and password its login is spelled from ...
  lemma SsSays(userinfo: Coded, host: string, port: int, fragment: string)
    ensures var l := Ss(userinfo, host, port, fragment);
            && (ParseLink(l).Ok? <==>
                  && host != "" && (forall c :: c in host ==> HostChar(c)) && port > 0
                  && exists m, pw :: m != "" && ':' !in m && userinfo.text == m + ":" + pw)
            && (ParseLink(l).Ok? ==>
                  && Named(ParseLink(l).value, fragment, host)
                  && forall m, pw :: m != "" && ':' !in m && userinfo.text == m + ":" + pw ==>
                       SsOutbound(ParseLink(l).value, m, pw, host, port))
  {
    Readable(host);
    CutParts(userinfo.text, ':');
    hide HostChar, DecodeFragment;
    forall m: string, pw | m != "" && ':' !in m && userinfo.text == m + ":" + pw
      ensures SplitMethodPass(userinfo.text) == Some((m, pw))
    {
      CutAt(m, ':', pw);
    }
    if SplitMethodPass(userinfo.text).Some? && ReadableHost(host) && port > 0 {
      var (m, pw) := SplitMethodPass(userinfo.text).value;
      SsBuilt(m, pw, host, port, fragment);
    }
  }

  lemma SsBuilt(m: string, pw: string, host: string, port: int, fragment: string)
    requires host != "" && port != 0
    ensures var p := SsParsed(host, port, Some((m, pw)), fragment);
            p.Ok? && SsOutbound(p.value, m, pw, host, port) && Named(p.value, fragment, host)
  {
    hide DecodeFragment;
    var srv := map[Address := JStr(host), Port := JNum(port), Method := JStr(m), Password := JStr(pw)];
    assert Lists(SsParsed(host, port, Some((m, pw)), fragment).value.outbound, Servers, srv);
  }

  // The text of a legacy link: a login, the last at sign, a host and a numeral.
  predicate LegacyText(text: string, m: string, pw: string, host: string, port: string) {
    && text == m + ":" + pw + "@" + host + ":" + port
    && m != "" && ':' !in m && ':' !in host && '@' !in host && '@' !in port
  }

  // ... and a legacy one by the text its base64 holds.
  lemma LegacySays(payload: Coded, fragment: string)
    ensures var l := SsLegacy(payload, fragment);
            && (ParseLink(l).Ok? <==>
                  && payload.Encoded?
                  && exists m, pw, host, port ::
                       LegacyText(payload.text, m, pw, host, port) && host != "" && ParseInt(port) != 0)
            && (ParseLink(l).Ok? ==>
                  forall m, pw, host, port :: LegacyText(payload.text, m, pw, host, port) ==>
                    SsOutbound(ParseLink(l).value, m, pw, host, ParseInt(port)) &&
                    Named(ParseLink(l).value, fragment, host))
  {
    LegacyIs(payload);
    hide LegacyParts, LegacyText, DecodeFragment, SsOutbound, Named;
    forall m, pw, host, port | host != "" && port != 0 ensures
      var p := SsParsed(host, port, Some((m, pw)), fragment);
      p.Ok? && SsOutbound(p.value, m, pw, host, port) && Named(p.value, fragment, host)
    {
      SsBuilt(m, pw, host, port, fragment);
    }
    if LegacyParts(payload).Ok? {
      var ((m, pw), host, n) := LegacyParts(payload).value;
      var port :| LegacyText(payload.text, m, pw, host, port) && n == ParseInt(port);
    }
  }

  lemma LegacyIs(payload: Coded)
    ensures forall m, pw, host, port :: payload.Encoded? && LegacyText(payload.text, m, pw, host, port) ==>
              LegacyParts(payload) == Ok(((m, pw), host, ParseInt(port)))
    ensures LegacyParts(payload).Ok? ==>
              var ((m, pw), host, n) := LegacyParts(payload).value;
              payload.Encoded? && exists port :: LegacyText(payload.text, m, pw, host, port) && n == ParseInt(port)
  {
    forall m, pw, host, port | payload.Encoded? && LegacyText(payload.text, m, pw, host, port)
      ensures LegacyParts(payload) == Ok(((m, pw), host, ParseInt(port)))
    {
      var mp, hp := m + ":" + pw, host + ":" + port;
      assert payload.text == mp + ['@'] + hp;
      CutLastAt(mp, '@', hp);
      CutAt(m, ':', pw);
      CutAt(host, ':', port);
      hide CutLast, Cut;
    }
    if LegacyParts(payload).Ok? { LegacyRead(payload); }
  }

  lemma LegacyRead(payload: Coded)
    requires LegacyParts(payload).Ok?
    ensures var ((m, pw), host, n) := LegacyParts(payload).value;
            payload.Encoded? && exists port :: LegacyText(payload.text, m, pw, host, port) && n == ParseInt(port)
  {
    var (mp, hp) := CutLast(payload.text, '@').value;
    var ((m, pw), host, n) := LegacyParts(payload).value;
    CutLastParts(payload.text, '@');
    Spelled(payload.text, mp, hp, m, pw, host, Cut(hp, ':').value.1);
    hide CutLast, Cut, LegacyText;
  }

  lemma Spelled(text: string, mp: string, hp: string, m: string, pw: string, host: string, port: string)
    requires text == mp + ['@'] + hp && '@' !in hp
    requires SplitMethodPass(mp) == Some((m, pw)) && Cut(hp, ':') == Some((host, port))
    ensures LegacyText(text, m, pw, host, port)
  {
    CutParts(mp, ':');
    CutParts(hp, ':');
    hide Cut;
    assert mp == m + ":" + pw && hp == host + ":" + port;
    assert text == m + ":" + pw + "@" + host + ":" + port;
    assert forall c :: c in host || c in port ==> c in hp;
  }

  lemma {:induction false} CutLastAt(a: string, sep: char, b: string)
    requires sep !in b
    ensures CutLast(a + [sep] + b, sep) == Some((a, b))
  {
    var s := a + [sep] + b;
    if b == [] {
      assert s[..|s| - 1] == a;
    } else {
      var c := b[..|b| - 1];
      assert s[..|s| - 1] == a + [sep] + c && s[|s| - 1] == b[|b| - 1];
      CutLastAt(a, sep, c);
      assert c + [b[|b| - 1]] == b;
    }
  }

  lemma {:induction false} CutLastParts(s: string, sep: char)
    ensures CutLast(s, sep).Some? ==>
              var (a, b) := CutLast(s, sep).value; sep !in b && s == a + [sep] + b
  {
    if s != [] {
      CutLastParts(s[..|s| - 1], sep);
      assert s == s[..|s| - 1] + [s[|s| - 1]];
    }
  }

  // ---- the stream it asks for ------------------------------------------------------

  function StreamFor(q: Query): Object { StreamObject(NetOf(q), SecOf(q)) }

  predicate TypeIs(q: Query, a: string, b: string) {
    ToLower(TrimSpace(Get(q, PType))) == a || ToLower(TrimSpace(Get(q, PType))) == b
  }

  // The block a stream holds under a key.
  function Block(stream: Object, k: Key): Object { Obj(Field(stream, k)) }

  // The path asked for, or the root, and the host if one is asked for.
  function PathOf(q: Query): string { if Blank(Get(q, PPath)) then "/" else Get(q, PPath) }

  predicate HostList(v: Json, host: string) {
    v == if host == "" then JNull else JArr([JStr(host)])
  }

  // Each transport a link names, by either of its names, is the one the stream is
  // over, and its options are where that transport keeps them.
  lemma WsSays(q: Query)
    requires TypeIs(q, "ws", "websocket")
    ensures var s := StreamFor(q);
            && Field(s, Network) == JStr("ws") && Str(Field(Block(s, WsSettings), Path)) == PathOf(q)
            && Str(Field(Obj(Field(Block(s, WsSettings), Headers)), HostName)) == Get(q, PHost)
  {
    NamesApart();
    StreamFields(NetOf(q), SecOf(q));
    hide SecOf, StreamObject, TrimSpace, ToLower, Blank, NamedNetwork;
  }

  lemma HttpUpgradeSays(q: Query)
    requires TypeIs(q, "httpupgrade", "httpupgrade")
    ensures var s := StreamFor(q);
            && Field(s, Network) == JStr("httpupgrade")
            && Str(Field(Block(s, HttpUpgradeSettings), Path)) == PathOf(q)
            && Str(Field(Block(s, HttpUpgradeSettings), Host)) == Get(q, PHost)
  {
    NamesApart();
    StreamFields(NetOf(q), SecOf(q));
    hide SecOf, StreamObject, TrimSpace, ToLower, Blank, NamedNetwork;
  }

  lemma GrpcSays(q: Query)
    requires TypeIs(q, "grpc", "gun")
    ensures var s := StreamFor(q);
            && Field(s, Network) == JStr("grpc")
            && Field(Block(s, GrpcSettings), ServiceName) == JStr(Get(q, PServiceName))
            && (Field(Block(s, GrpcSettings), MultiMode) == JBool(true) <==> Get(q, PMode) == "multi")
  {
    NamesApart();
    StreamFields(NetOf(q), SecOf(q));
    hide SecOf, StreamObject, TrimSpace, ToLower, Blank, NamedNetwork;
  }

  lemma HttpSays(q: Query)
    requires TypeIs(q, "h2", "http")
    ensures var s := StreamFor(q);
            && Field(s, Network) == JStr("http") && Str(Field(Block(s, HttpSettings), Path)) == PathOf(q)
            && HostList(Field(Block(s, HttpSettings), Host), Get(q, PHost))
  {
    NamesApart();
    StreamFields(NetOf(q), SecOf(q));
    hide SecOf, StreamObject, TrimSpace, ToLower, Blank, NamedNetwork;
  }

  lemma XhttpSays(q: Query)
    requires TypeIs(q, "xhttp", "splithttp")
    ensures var s := StreamFor(q);
            && Field(s, Network) == JStr("xhttp") && Str(Field(Block(s, XhttpSettings), Path)) == PathOf(q)
            && Str(Field(Block(s, XhttpSettings), Host)) == Get(q, PHost)
            && Str(Field(Block(s, XhttpSettings), ModeKey)) == if Blank(Get(q, PMode)) then "auto" else Get(q, PMode)
  {
    NamesApart();
    StreamFields(NetOf(q), SecOf(q));
    hide SecOf, StreamObject, TrimSpace, ToLower, Blank, NamedNetwork;
  }

  lemma NamesApart()
    ensures NamedNetwork("ws") == NamedNetwork("websocket") == Ws && NamedNetwork("httpupgrade") == HttpUpgrade
    ensures NamedNetwork("grpc") == NamedNetwork("gun") == Grpc && NamedNetwork("h2") == NamedNetwork("http") == Http
    ensures NamedNetwork("xhttp") == NamedNetwork("splithttp") == Xhttp
  {
    assert |"ws"| == |"h2"| == 2 && |"tcp"| == |"raw"| == |"gun"| == 3 && |"grpc"| == |"http"| == 4;
    assert |"xhttp"| == 5 && |"websocket"| == |"splithttp"| == 9 && |"httpupgrade"| == 11;
    assert "ws"[0] == 'w' && "h2"[0] == 'h' && "gun"[0] == 'g' && "grpc"[0] == 'g' && "http"[0] == 'h';
    assert "tcp"[0] == 't' && "raw"[0] == 'r' && "websocket"[0] == 'w' && "splithttp"[0] == 's';
  }

  // Plain tcp has an http header exactly when one is asked for.
  lemma TcpSays(q: Query)
    requires TypeIs(q, "", "tcp") || TypeIs(q, "raw", "raw")
    ensures var s := StreamFor(q);
            var header := Obj(Field(Block(s, TcpSettings), Header));
            && Field(s, Network) == JStr("tcp")
            && (Field(header, Type) == JStr("http") <==> ToLower(Get(q, PHeaderType)) == "http")
            && (ToLower(Get(q, PHeaderType)) == "http" ==>
                  HostList(Field(Obj(Field(Obj(Field(header, Request)), Headers)), HostName), Get(q, PHost)))
  {
    StreamFields(NetOf(q), SecOf(q));
    hide SecOf, StreamObject, TrimSpace, ToLower, Blank;
  }

  // The server name asked for: the peer's where none is given.
  function NameFor(q: Query): string {
    if Blank(Get(q, PSni)) then Get(q, PPeer) else Get(q, PSni)
  }

  // Security is off exactly when the link asks for none, reality exactly when it
  // says so, and tls whatever else it says; each with the names and keys it gives.
  lemma SecuritySays(q: Query)
    ensures var s, sec := StreamFor(q), ToLower(Get(q, PSecurity));
            var tls, r := Block(s, TlsSettings), Block(s, RealitySettings);
            && (Field(s, Security) == JNull <==> SaysNoSecurity(q))
            && (Field(s, Security) == JStr("reality") <==> sec == "reality")
            && (Field(s, Security) == JStr("tls") <==> !SaysNoSecurity(q) && sec != "reality")
            && (Field(s, Security) == JStr("reality") ==>
                  && Str(Field(r, ServerName)) == NameFor(q) && Str(Field(r, Fingerprint)) == Get(q, PFp)
                  && Str(Field(r, PublicKey)) == Get(q, PPbk) && Str(Field(r, ShortId)) == Get(q, PSid)
                  && Str(Field(r, SpiderX)) == Get(q, PSpx))
            && (Field(s, Security) == JStr("tls") ==> TlsSays(tls, q, NameFor(q)))
  {
    hide Blank, NormalPin, SplitComma, ToLower, StreamObject, NetOf;
    SecurityKind(q);
    StreamFields(NetOf(q), SecOf(q));
    if SecOf(q).WithTls? { TlsFieldsSay(q, ""); }
    hide TlsObject, TlsSays;
  }

  lemma SecurityKind(q: Query)
    ensures SecurityOf(Get(q, PSecurity)) == Plain <==> SaysNoSecurity(q)
    ensures SecurityOf(Get(q, PSecurity)) == Reality <==> ToLower(Get(q, PSecurity)) == "reality"
    ensures "tls" != "reality"
  {
    assert |"reality"| == 7 && |"none"| == 4 && |"tls"| == 3;
  }

  // A tls block with the options of a query: the alpn list's trimmed parts, and the
  // certificate pin in its normal form.
  predicate TlsSays(tls: Object, q: Query, name: string) {
    && Str(Field(tls, ServerName)) == name && Str(Field(tls, Fingerprint)) == Get(q, PFp)
    && Field(tls, Alpn) == (if Get(q, PAlpn) == "" then JNull else StrArr(SplitComma(Get(q, PAlpn))))
    && Str(Field(tls, PinnedCert)) == NormalPin(if Blank(Get(q, PPcs)) then Get(q, PPinSha) else Get(q, PPcs))
    && Str(Field(tls, VerifyName)) == Get(q, PVcn)
  }

  lemma TlsFieldsSay(q: Query, fallback: string)
    ensures TlsSays(TlsObject(TlsOf(q, fallback)), q, if NameFor(q) == "" then fallback else NameFor(q))
  {
    hide Blank, NormalPin, SplitComma, StrArr;
  }
}
