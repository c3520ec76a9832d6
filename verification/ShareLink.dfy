// Share links and the outbounds they stand for (core/xray/link.go,
// core/xray/entrylink.go). A link is taken apart by its URL, base64 or JSON
// codec already; what is modelled is what the code makes of the parts.
module ShareLink {
  import opened Wrappers
  import opened Text
  import opened StreamSettings

  // The characters Go's URL parser accepts in a host name or bracketed address.
  predicate HostChar(c: char) {
    'A' <= c <= 'Z' || 'a' <= c <= 'z' || '0' <= c <= '9' ||
    c in {'-', '_', '.', '~', '!', '$', '&', '\'', '(', ')', '*', '+', ',', ';', '=', ':', '<', '>', '"'}
  }

  predicate ReadableHost(h: string) {
    h != "" && forall i :: 0 <= i < |h| ==> HostChar(h[i])
  }

  // port: what the text after the host reads as; nothing but a positive one is a port.
  datatype Url = Url(user: string, password: string, host: string, port: int, query: Query, fragment: string)

  // A text as it stands, or the base64 of a text.
  datatype Coded = Raw(text: string) | Encoded(text: string)

  datatype VMess = VMess(
    ps: string, add: string, port: Json, id: string, aid: Json, scy: string, net: string, header: string,
    host: string, path: string, tls: string, sni: string, alpn: string, fp: string, pcs: string, vcn: string)

  datatype VMessPayload = NotBase64 | NotJson | Payload(v: VMess)

  datatype Link =
    | Vless(url: Url)
    | Trojan(url: Url)
    | Hysteria2(url: Url)
    | Vmess(payload: VMessPayload)
    | Ss(userinfo: Coded, host: string, port: int, fragment: string)
    | SsLegacy(text: Coded, fragment: string)

  datatype Parsed = Parsed(name: string, outbound: Object)

  // ---- labels --------------------------------------------------------------------

  predicate Hex(c: char) { '0' <= c <= '9' || 'a' <= c <= 'f' || 'A' <= c <= 'F' }

  function HexValue(c: char): nat
    requires Hex(c)
  {
    if c <= '9' then c as int - '0' as int
    else if c <= 'F' then c as int - 'A' as int + 10
    else c as int - 'a' as int + 10
  }

  function QueryUnescape(s: string): Option<string> {
    if s == "" then Some("")
    else if s[0] == '%' then
      if |s| < 3 || !Hex(s[1]) || !Hex(s[2]) then None
      else match QueryUnescape(s[3..])
        case Some(r) => Some([(HexValue(s[1]) * 16 + HexValue(s[2])) as char] + r)
        case None => None
    else match QueryUnescape(s[1..])
      case Some(r) => Some([if s[0] == '+' then ' ' else s[0]] + r)
      case None => None
  }

  function DecodeFragment(frag: string): string {
    match QueryUnescape(frag)
    case Some(s) => s
    case None => frag
  }

  // The fragment a URL parser hands over for a label written with
  // url.QueryEscape: percent escapes are undone, the pluses for spaces stay.
  function PrintedFragment(title: string): string {
    if title == "" then "" else [if title[0] == ' ' then '+' else title[0]] + PrintedFragment(title[1..])
  }

  predicate ValidEscapes(s: string) {
    s == "" ||
    (if s[0] == '%' then |s| >= 3 && Hex(s[1]) && Hex(s[2]) && ValidEscapes(s[3..]) else ValidEscapes(s[1..]))
  }

  // The labels that come back as they were: no plus and no percent sign, or,
  // when the percent signs do not form escapes, no space.
  predicate LabelKept(title: string) {
    if ValidEscapes(title) then '%' !in title && '+' !in title else ' ' !in title
  }

  lemma {:induction false} UnescapePrinted(s: string)
    ensures QueryUnescape(PrintedFragment(s)).Some? <==> ValidEscapes(s)
    ensures ValidEscapes(s) ==>
              var r := QueryUnescape(PrintedFragment(s)).value;
              |r| <= |s| && (r == s <==> '%' !in s && '+' !in s)
  {
    if s != "" {
      var p := PrintedFragment(s);
      assert p[1..] == PrintedFragment(s[1..]);
      if s[0] == '%' {
        if |s| >= 3 {
          assert p[3..] == PrintedFragment(s[3..]) && p[1] == (if s[1] == ' ' then '+' else s[1]) &&
              p[2] == (if s[2] == ' ' then '+' else s[2]) by {
            assert p[1..][1..] == PrintedFragment(s[1..][1..]) && s[1..][1..] == s[2..] && p[1..][1..] == p[2..];
            assert p[2..][1..] == PrintedFragment(s[2..][1..]) && s[2..][1..] == s[3..] && p[2..][1..] == p[3..];
          }
          UnescapePrinted(s[3..]);
        } else {
          PrintedLength(s);
        }
      } else {
        UnescapePrinted(s[1..]);
        assert s == [s[0]] + s[1..];
        if ValidEscapes(s) {
          var r, r1 := QueryUnescape(p).value, QueryUnescape(p[1..]).value;
          assert r[1..] == r1;
          assert '%' !in s <==> '%' !in s[1..];
        }
      }
    }
  }

  lemma {:induction false} PrintedLength(s: string)
    ensures |PrintedFragment(s)| == |s|
    ensures PrintedFragment(s) == s <==> ' ' !in s
  {
    if s != "" {
      PrintedLength(s[1..]);
      assert s == [s[0]] + s[1..];
      assert PrintedFragment(s)[1..] == PrintedFragment(s[1..]);
    }
  }

  function FragmentName(fragment: string, fallback: string): string {
    if fragment == "" then fallback else DecodeFragment(fragment)
  }

  // A label survives a URL link exactly when LabelKept; without one, the link is
  // named after its host.
  lemma LabelRoundTrip(title: string, host: string)
    ensures FragmentName(PrintedFragment(title), host) == title <==>
              if title == "" then host == "" else LabelKept(title)
  {
    UnescapePrinted(title);
    PrintedLength(title);
  }

  // ---- outbounds -------------------------------------------------------------------

  function OutboundOf(protocol: string, settings: Object, stream: Object): Object {
    var o := map[Protocol := JStr(protocol), Settings := JObj(settings)];
    if stream == map[] then o else o[Stream := JObj(stream)]
  }

  function VlessUser(id: string, encryption: string, flow: string): Object {
    var user := map[Id := JStr(id), Encryption := JStr(encryption)];
    if flow == "" then user else user[Flow := JStr(flow)]
  }

  function VnextSettings(host: string, port: int, user: Object): Object {
    map[Vnext := JArr([JObj(map[Address := JStr(host), Port := JNum(port), Users := JArr([JObj(user)])])])]
  }

  function ServerAt(host: string, port: int, user: Object): Object {
    map[Address := JStr(host), Port := JNum(port), Users := JArr([JObj(user)])]
  }

  function TrojanSettings(host: string, port: int, password: string): Object {
    map[Servers := JArr([JObj(map[Address := JStr(host), Port := JNum(port), Password := JStr(password)])])]
  }

  function SsSettings(host: string, port: int, m: string, password: string): Object {
    map[Servers := JArr([JObj(map[Address := JStr(host), Port := JNum(port), Method := JStr(m),
                                  Password := JStr(password)])])]
  }

  predicate Reachable(u: Url) { ReadableHost(u.host) && u.port > 0 }

  function ToInt(v: Json): int {
    match v
    case JNum(n) => n
    case JStr(s) => ParseInt(TrimSpace(s))
    case _ => 0
  }

  // ---- parsing -----------------------------------------------------------------------

  function ParseVless(u: Url): Result<Parsed, string> {
    if !Reachable(u) then Err("missing host or port")
    else if u.user == "" then Err("vless: missing uuid")
    else
      var user := VlessUser(u.user, OrDefault(Get(u.query, PEncryption), "none"), Get(u.query, PFlow));
      Ok(Parsed(FragmentName(u.fragment, u.host),
                OutboundOf("vless", VnextSettings(u.host, u.port, user), StreamObject(NetOf(u.query), SecOf(u.query)))))
  }

  // A trojan link says tls unless it says reality.
  function TrojanSec(q: Query, host: string): SecFacts {
    if SecOf(q).NoSecurity? then TlsOf(q, host) else SecOf(q)
  }

  method TrojanStream(q: Query, host: string) returns (stream: Object)
    ensures stream == StreamObject(NetOf(q), TrojanSec(q, host))
  {
    hide NetOf, SecOf, TlsObject, StreamObject;
    stream := BuildStream(q);
    StreamFields(NetOf(q), SecOf(q));
    if Security !in stream {
      TlsAdded(NetOf(q), TlsOf(q, host));
      stream := stream[Security := JStr("tls")];
      stream := ApplyTLS(stream, q, host);
    }
  }

  lemma TlsAdded(n: NetFacts, s: SecFacts)
    requires s.WithTls?
    ensures StreamObject(n, s) ==
            StreamObject(n, NoSecurity)[Security := JStr("tls")][TlsSettings := JObj(TlsObject(s))]
  {
    hide NetName, TlsObject, TransportBlock;
  }

  function ParseTrojan(u: Url): Result<Parsed, string> {
    if !Reachable(u) then Err("missing host or port")
    else if u.user == "" then Err("trojan: missing password")
    else
      Ok(Parsed(FragmentName(u.fragment, u.host),
                OutboundOf("trojan", TrojanSettings(u.host, u.port, u.user),
                           StreamObject(NetOf(u.query), TrojanSec(u.query, u.host)))))
  }

  function HysteriaStream(sni: string, pin: string, vcn: string, auth: string): Object {
    map[Network := JStr("hysteria"), Security := JStr("tls"),
        TlsSettings := JObj(TlsFields(sni, "", None, pin, vcn)),
        HysteriaSettings := JObj(map[Version := JNum(2), Auth := JStr(auth)])]
  }

  function HysteriaAuth(u: Url): string {
    if u.password == "" then u.user else u.user + ":" + u.password
  }

  function ParseHysteria2(u: Url): Result<Parsed, string> {
    if !Reachable(u) then Err("missing host or port")
    else if HysteriaAuth(u) == "" then Err("hysteria2: missing auth")
    else
      Ok(Parsed(FragmentName(u.fragment, u.host),
                OutboundOf("hysteria", map[Version := JNum(2), Address := JStr(u.host), Port := JNum(u.port)],
                           HysteriaStream(Get(u.query, PSni), PinOf(u.query), Get(u.query, PVcn), HysteriaAuth(u)))))
  }

  function VMessQuery(v: VMess): Query {
    map[PType := v.net, PSecurity := v.tls, PHost := v.host, PPath := v.path, PSni := v.sni, PFp := v.fp,
        PAlpn := v.alpn,
        PPcs := v.pcs, PVcn := v.vcn, PHeaderType := v.header, PServiceName := v.path]
  }

  function VMessUser(id: string, alterId: int, security: string): Object {
    map[Id := JStr(id), AlterId := JNum(alterId), Security := JStr(security)]
  }

  function ParseVmess(p: VMessPayload): Result<Parsed, string> {
    match p
    case NotBase64 => Err("vmess: bad base64")
    case NotJson => Err("vmess: bad json")
    case Payload(v) =>
      if v.add == "" || ToInt(v.port) == 0 || v.id == "" then Err("vmess: missing address/port/id")
      else
        var q := VMessQuery(v);
        Ok(Parsed(if v.ps == "" then v.add else v.ps,
                  OutboundOf("vmess", VnextSettings(v.add, ToInt(v.port),
                                                    VMessUser(v.id, ToInt(v.aid), OrDefault(v.scy, "auto"))),
                             StreamObject(NetOf(q), SecOf(q)))))
  }

  function SplitMethodPass(s: string): Option<(string, string)> {
    match Cut(s, ':')
    case None => None
    case Some((m, p)) => if m == "" then None else Some((m, p))
  }

  function SsParsed(host: string, port: int, mp: Option<(string, string)>, fragment: string): Result<Parsed, string> {
    if mp.None? || host == "" || port == 0 then Err("ss: incomplete (method/host/port)")
    else
      Ok(Parsed(if fragment == "" then host else DecodeFragment(fragment),
                OutboundOf("shadowsocks", SsSettings(host, port, mp.value.0, mp.value.1), map[])))
  }

  // Cut at the last separator.
  function CutLast(s: string, sep: char): Option<(string, string)> {
    if s == [] then None
    else if s[|s| - 1] == sep then Some((s[..|s| - 1], ""))
    else match CutLast(s[..|s| - 1], sep)
      case None => None
      case Some((a, b)) => Some((a, b + [s[|s| - 1]]))
  }

  // A legacy payload's method and password, host and port.
  function LegacyParts(payload: Coded): Result<((string, string), string, int), string> {
    if payload.Raw? then Err("ss: bad base64")
    else match CutLast(payload.text, '@')
      case None => Err("ss: malformed")
      case Some((mp, hp)) =>
        match (SplitMethodPass(mp), Cut(hp, ':'))
        case (None, _) => Err("ss: missing method:password")
        case (_, None) => Err("ss: missing host:port")
        case (Some(m), Some((host, port))) => Ok((m, host, ParseInt(port)))
  }

  function ParseLink(l: Link): Result<Parsed, string> {
    match l
    case Vless(u) => ParseVless(u)
    case Trojan(u) => ParseTrojan(u)
    case Hysteria2(u) => ParseHysteria2(u)
    case Vmess(p) => ParseVmess(p)
    case Ss(userinfo, host, port, fragment) =>
      if !ReadableHost(host) || port <= 0 then Err("missing host or port")
      else SsParsed(host, port, SplitMethodPass(userinfo.text), fragment)
    case SsLegacy(payload, fragment) =>
      match LegacyParts(payload)
      case Err(e) => Err(e)
      case Ok((mp, host, port)) => SsParsed(host, port, Some(mp), fragment)
  }

  // ---- printing ------------------------------------------------------------------------

  function ServerOf(settings: Object, listKey: Key): Object {
    var list := Items(Field(settings, listKey));
    if list == [] then settings else Obj(list[0])
  }

  function UserOf(srv: Object): Object {
    var users := Items(Field(srv, Users));
    if users == [] then srv else Obj(users[0])
  }

  predicate HasEndpoint(srv: Object) {
    Str(Field(srv, Address)) != "" && ToInt(Field(srv, Port)) != 0
  }

  function UrlTo(user: string, srv: Object, q: Query, title: string): Url {
    Url(user, "", Str(Field(srv, Address)), ToInt(Field(srv, Port)), q, PrintedFragment(title))
  }

  function VlessLink(settings: Object, stream: Object, title: string): Result<Link, string> {
    var srv := ServerOf(settings, Vnext);
    var user := UserOf(srv);
    if !HasEndpoint(srv) then Err("vless: missing address/port")
    else if Str(Field(user, Id)) == "" then Err("vless: missing uuid")
    else
      var q := StreamQuery(stream)[PEncryption := OrDefault(Str(Field(user, Encryption)), "none")];
      Ok(Vless(UrlTo(Str(Field(user, Id)), srv, SetIf(q, PFlow, Str(Field(user, Flow))), title)))
  }

  function TrojanLink(settings: Object, stream: Object, title: string): Result<Link, string> {
    var srv := ServerOf(settings, Servers);
    if !HasEndpoint(srv) then Err("trojan: missing address/port")
    else if Str(Field(srv, Password)) == "" then Err("trojan: missing password")
    else
      var q := StreamQuery(stream);
      var q := if Get(q, PSecurity) == "" then q[PSecurity := "none"] else q;
      Ok(Trojan(UrlTo(Str(Field(srv, Password)), srv, q, title)))
  }

  function SsLink(settings: Object, title: string): Result<Link, string> {
    var srv := ServerOf(settings, Servers);
    if !HasEndpoint(srv) then Err("ss: missing address/port")
    else if Str(Field(srv, Method)) == "" then Err("ss: missing method")
    else
      Ok(Ss(Encoded(Str(Field(srv, Method)) + ":" + Str(Field(srv, Password))),
            Str(Field(srv, Address)), ToInt(Field(srv, Port)), PrintedFragment(title)))
  }

  function Hysteria2Link(settings: Object, stream: Object, title: string): Result<Link, string> {
    var auth, tls := Str(Field(Obj(Field(stream, HysteriaSettings)), Auth)), Obj(Field(stream, TlsSettings));
    if !HasEndpoint(settings) then Err("hysteria2: missing address/port")
    else if auth == "" then Err("hysteria2: missing auth")
    else
      var q := SetIf(SetIf(map[], PSni, Str(Field(tls, ServerName))), PPinSha, Str(Field(tls, PinnedCert)));
      Ok(Hysteria2(UrlTo(auth, settings, q, title)))
  }

  function VmessLink(settings: Object, stream: Object, title: string): Result<Link, string> {
    var srv := ServerOf(settings, Vnext);
    var user := UserOf(srv);
    if !HasEndpoint(srv) then Err("vmess: missing address/port")
    else if Str(Field(user, Id)) == "" then Err("vmess: missing uuid")
    else
      Ok(Vmess(Payload(PrintedVMess(srv, user, StreamQuery(stream), title))))
  }

  function PrintedVMess(srv: Object, user: Object, q: Query, title: string): VMess {
    VMess(title, Str(Field(srv, Address)), JStr(FormatInt(ToInt(Field(srv, Port)))), Str(Field(user, Id)),
          JStr(FormatInt(ToInt(Field(user, AlterId)))), OrDefault(Str(Field(user, Security)), "auto"),
          Get(q, PType), OrDefault(Get(q, PHeaderType), "none"), Get(q, PHost),
          if Get(q, PType) == "grpc" then Get(q, PServiceName) else Get(q, PPath), Get(q, PSecurity),
          Get(q, PSni), Get(q, PAlpn), Get(q, PFp), Get(q, PPcs), Get(q, PVcn))
  }

  datatype Kind = KVless | KVmess | KTrojan | KSs | KHysteria | KNoProtocol | KOther

  function KindOf(protocol: string): Kind {
    if protocol == "vless" then KVless else if protocol == "vmess" then KVmess else if protocol == "trojan" then KTrojan
    else if protocol == "shadowsocks" then KSs else if protocol == "hysteria" then KHysteria
    else if protocol == "" then KNoProtocol else KOther
  }

  function OutboundLink(ob: Object, title: string): Result<Link, string> {
    var settings, stream := Obj(Field(ob, Settings)), Obj(Field(ob, Stream));
    match KindOf(Str(Field(ob, Protocol)))
    case KVless => VlessLink(settings, stream, title)
    case KVmess => VmessLink(settings, stream, title)
    case KTrojan => TrojanLink(settings, stream, title)
    case KSs => SsLink(settings, title)
    case KHysteria => Hysteria2Link(settings, stream, title)
    case KNoProtocol => Err("outbound has no protocol")
    case KOther => Err("outbound has no share-link form")
  }

  // ---- the links that come back ------------------------------------------------------------

  // A server name: not one of spaces taken from `peer`.
  predicate NameCarried(q: Query) {
    Blank(Get(q, PSni)) && Blank(Get(q, PPeer)) ==> Get(q, PPeer) == ""
  }

  // An alpn list: with an element, if given at all.
  predicate AlpnCarried(q: Query) {
    Get(q, PAlpn) != "" ==> SplitComma(Get(q, PAlpn)) != []
  }

  // A certificate pin: not one of spaces that normalising left in.
  predicate PinCarried(q: Query) {
    Blank(PinOf(q)) ==> PinOf(q) == ""
  }

  predicate QueryCarried(q: Query, sec: Sec) {
    match sec
    case Plain => true
    case Reality => NameCarried(q)
    case Tls => NameCarried(q) && AlpnCarried(q) && PinCarried(q)
  }

  predicate Carries(l: Link) {
    match l
    case Vless(u) => QueryCarried(u.query, SecurityOf(Get(u.query, PSecurity)))
    case Trojan(u) =>
      var sec := SecurityOf(Get(u.query, PSecurity));
      QueryCarried(u.query, if sec == Plain then Tls else sec)
    case Hysteria2(u) => Get(u.query, PVcn) == ""
    case Vmess(p) => p.Payload? && QueryCarried(VMessQuery(p.v), SecurityOf(p.v.tls))
    case Ss(_, _, _, _) => true
    case SsLegacy(payload, _) =>
      match LegacyParts(payload)
      case Ok((_, host, port)) => ReadableHost(host) && port > 0
      case Err(_) => false
  }

  lemma CarriedMeans(q: Query, host: string)
    requires ReadableHost(host)
    ensures QueryCarried(q, SecurityOf(Get(q, PSecurity))) <==> Carried(SecOf(q))
    ensures QueryCarried(q, Tls) <==> Carried(TlsOf(q, host))
    ensures QueryCarried(q, Tls) <==> Carried(TlsOf(q, ""))
  {
    hide SplitComma, PinOf;
    assert !Blank(host) by { assert HostChar(host[0]); }
    assert Blank("");
  }

  // What ParseLink made of a link, printed and parsed again.
  ghost predicate ComesBack(l: Link, title: string)
    requires ParseLink(l).Ok?
  {
    var ob := ParseLink(l).value.outbound;
    && OutboundLink(ob, title).Ok?
    && ParseLink(OutboundLink(ob, title).value).Ok?
    && ParseLink(OutboundLink(ob, title).value).value.outbound == ob
  }

  lemma KindNames()
    ensures KindOf("vless") == KVless && KindOf("vmess") == KVmess && KindOf("trojan") == KTrojan
    ensures KindOf("shadowsocks") == KSs && KindOf("hysteria") == KHysteria
  {
    assert "vless"[1] == 'l' && "vmess"[1] == 'm' && |"vless"| == 5;
  }

  lemma OutboundFields(protocol: string, settings: Object, stream: Object)
    ensures var o := OutboundOf(protocol, settings, stream);
            Field(o, Protocol) == JStr(protocol) && Field(o, Settings) == JObj(settings) &&
                Obj(Field(o, Stream)) == stream
  {
  }

  lemma OptionsUnchanged(q: Query, r: Query)
    requires SameBut(q, r, {PEncryption, PFlow})
    ensures NetOf(r) == NetOf(q) && SecOf(r) == SecOf(q)
  {
    hide *;
    NetUnchanged(q, r);
    SecUnchanged(q, r);
  }

  lemma NetUnchanged(q: Query, r: Query)
    requires SameBut(q, r, {PEncryption, PFlow})
    ensures NetOf(r) == NetOf(q)
  {
    hide NormNetwork, HeaderIsHttp, Get, OrDefault;
  }

  lemma SecUnchanged(q: Query, r: Query)
    requires SameBut(q, r, {PEncryption, PFlow})
    ensures SecOf(r) == SecOf(q)
  {
    hide Get, SecurityOf, SplitComma, NormalPin, OrDefault;
  }

  lemma VlessPrinted(host: string, port: int, id: string, encryption: string, flow: string, stream: Object,
                     title: string)
    requires host != "" && port != 0 && id != "" && !Blank(encryption) && Unset(StreamQuery(stream), UnprintedParams())
    ensures var ob := OutboundOf("vless", VnextSettings(host, port, VlessUser(id, encryption, flow)), stream);
            exists q :: OutboundLink(ob, title) == Ok(Vless(Url(id, "", host, port, q, PrintedFragment(title)))) &&
              SameBut(StreamQuery(stream), q, {PEncryption, PFlow}) && Get(q, PEncryption) == encryption &&
                  Get(q, PFlow) == flow
  {
    hide StreamQuery, OutboundLink, OutboundOf, VnextSettings, PrintedFragment, SameBut;
    var user := VlessUser(id, encryption, flow);
    assert Str(Field(user, Id)) == id && Str(Field(user, Encryption)) == encryption && Str(Field(user, Flow)) == flow;
    VlessWalk(host, port, user, stream, title);
    VlessParams(StreamQuery(stream), encryption, flow);
  }

  lemma VlessParams(q: Query, encryption: string, flow: string)
    requires Unset(q, UnprintedParams())
    ensures var r := SetIf(q[PEncryption := encryption], PFlow, flow);
            SameBut(q, r, {PEncryption, PFlow}) && Get(r, PEncryption) == encryption && Get(r, PFlow) == flow
  {
    assert PFlow in UnprintedParams();
  }

  lemma VlessWalk(host: string, port: int, user: Object, stream: Object, title: string)
    requires host != "" && port != 0 && Str(Field(user, Id)) != ""
    ensures OutboundLink(OutboundOf("vless", VnextSettings(host, port, user), stream), title) ==
            Ok(Vless(Url(Str(Field(user, Id)), "", host, port,
                         SetIf(StreamQuery(stream)[PEncryption := OrDefault(Str(Field(user, Encryption)), "none")],
                               PFlow, Str(Field(user, Flow))),
                         PrintedFragment(title))))
  {
    hide StreamQuery, KindOf, OutboundOf, PrintedFragment, SetIf, OrDefault;
    KindNames();
    var settings := VnextSettings(host, port, user);
    OutboundFields("vless", settings, stream);
    var srv := ServerAt(host, port, user);
    assert ServerOf(settings, Vnext) == srv;
    assert Field(srv, Address) == JStr(host) && Field(srv, Port) == JNum(port) && UserOf(srv) == user;
  }

  lemma VlessRoundTrip(u: Url, title: string)
    requires ParseVless(u).Ok?
    ensures ComesBack(Vless(u), title) <==> Carries(Vless(u))
  {
    hide NetOf, SecOf, StreamObject, StreamQuery, OutboundOf, VnextSettings, VlessUser, OutboundLink, Carried,
         QueryCarried, SaneNet, SaneSec,
         Get, SecurityOf, SaysSecurity, PrintedFragment, DecodeFragment;
    var n, s := NetOf(u.query), SecOf(u.query);
    var stream := StreamObject(n, s);
    NetOfSane(u.query);
    SecOfSane(u.query, "");
    QuerySays(n, s);
    PrintedOptions(n, s);
    CarriedMeans(u.query, u.host);
    var enc, flow := OrDefault(Get(u.query, PEncryption), "none"), Get(u.query, PFlow);
    assert !Blank("none") by { assert "none"[0] == 'n'; }
    VlessPrinted(u.host, u.port, u.user, enc, flow, stream, title);
    var ob := OutboundOf("vless", VnextSettings(u.host, u.port, VlessUser(u.user, enc, flow)), stream);
    var q :| OutboundLink(ob, title) == Ok(Vless(Url(u.user, "", u.host, u.port, q, PrintedFragment(title)))) &&
      SameBut(StreamQuery(stream), q, {PEncryption, PFlow}) && Get(q, PEncryption) == enc && Get(q, PFlow) == flow;
    OptionsUnchanged(StreamQuery(stream), q);
    Reread("vless", VnextSettings(u.host, u.port, VlessUser(u.user, enc, flow)), n, s, SecOf(q));
    SecOfSane(q, "");
  }

  // Two outbounds that differ only in their options are equal when the options are.
  lemma Reread(protocol: string, settings: Object, n: NetFacts, s: SecFacts, s': SecFacts)
    requires SaneNet(n) && SaneSec(s)
    ensures var ob, ob' := OutboundOf(protocol, settings, StreamObject(n, s)),
                OutboundOf(protocol, settings, StreamObject(n, s'));
            SaneSec(s') ==> (ob' == ob <==> s' == s)
  {
    hide StreamObject, SaneNet, SaneSec, OutboundOf;
    OutboundFields(protocol, settings, StreamObject(n, s));
    OutboundFields(protocol, settings, StreamObject(n, s'));
    if SaneSec(s') && StreamObject(n, s') == StreamObject(n, s) { StreamInjective(n, s', n, s); }
  }

  lemma TrojanPrinted(host: string, port: int, password: string, stream: Object, title: string)
    requires host != "" && port != 0 && password != "" && Get(StreamQuery(stream), PSecurity) != ""
    ensures OutboundLink(OutboundOf("trojan", TrojanSettings(host, port, password), stream), title) ==
            Ok(Trojan(Url(password, "", host, port, StreamQuery(stream), PrintedFragment(title))))
  {
    hide StreamQuery, KindOf, OutboundOf, Get, PrintedFragment;
    KindNames();
    var settings := TrojanSettings(host, port, password);
    OutboundFields("trojan", settings, stream);
    var srv := Obj(Items(Field(settings, Servers))[0]);
    assert ServerOf(settings, Servers) == srv;
    assert Field(srv, Address) == JStr(host) && Field(srv, Port) == JNum(port) &&
        Field(srv, Password) == JStr(password);
  }

  lemma TrojanRoundTrip(u: Url, title: string)
    requires ParseTrojan(u).Ok?
    ensures ComesBack(Trojan(u), title) <==> Carries(Trojan(u))
  {
    hide NetOf, SecOf, StreamObject, StreamQuery, OutboundOf, TrojanSettings, OutboundLink, Carried, QueryCarried,
         SaneNet, SaneSec,
         Get, SecurityOf, SaysSecurity, PrintedFragment, DecodeFragment, TlsOf, Unset;
    var n, s := NetOf(u.query), TrojanSec(u.query, u.host);
    var stream := StreamObject(n, s);
    NetOfSane(u.query);
    SecOfSane(u.query, u.host);
    SecOfKind(u.query);
    TlsOfKind(u.query, u.host);
    QuerySays(n, s);
    PrintedOptions(n, s);
    CarriedMeans(u.query, u.host);
    TrojanPrinted(u.host, u.port, u.user, stream, title);
    var q := StreamQuery(stream);
    SecOfKind(q);
    SaidSecurity(q, s);
    SecOfSane(q, "");
    Reread("trojan", TrojanSettings(u.host, u.port, u.user), n, s, SecOf(q));
  }

  lemma SecOfKind(q: Query)
    ensures SecOf(q).NoSecurity? <==> SecurityOf(Get(q, PSecurity)) == Plain
  {
  }

  lemma TlsOfKind(q: Query, host: string)
    ensures TlsOf(q, host).WithTls?
  {
  }

  lemma SaidSecurity(q: Query, s: SecFacts)
    requires SaysSecurity(q, s)
    ensures SecurityOf(Get(q, PSecurity)) == Plain <==> s.NoSecurity?
  {
    SecurityNames();
  }

  lemma HysteriaPrinted(host: string, port: int, auth: string, sni: string, pin: string, vcn: string, title: string)
    requires host != "" && port != 0 && auth != ""
    ensures var ob := OutboundOf("hysteria", map[Version := JNum(2), Address := JStr(host), Port := JNum(port)],
                                 HysteriaStream(sni, pin, vcn, auth));
            OutboundLink(ob, title) ==
            Ok(Hysteria2(Url(auth, "", host, port, SetIf(SetIf(map[], PSni, sni), PPinSha, pin),
                             PrintedFragment(title))))
  {
    hide KindOf, OutboundOf, TlsFields, PrintedFragment, SetIf;
    KindNames();
    var settings := map[Version := JNum(2), Address := JStr(host), Port := JNum(port)];
    var stream := HysteriaStream(sni, pin, vcn, auth);
    OutboundFields("hysteria", settings, stream);
    TlsFieldsRead(sni, "", None, pin, vcn);
    assert Field(settings, Address) == JStr(host) && Field(settings, Port) == JNum(port);
    assert Obj(Field(stream, TlsSettings)) == TlsFields(sni, "", None, pin, vcn);
    assert Field(Obj(Field(stream, HysteriaSettings)), Auth) == JStr(auth);
  }

  // The printed parameters give the server name and the pin back as they were.
  lemma HysteriaReread(sni: string, pin: string)
    requires NormalPin(pin) == pin
    ensures var q := SetIf(SetIf(map[], PSni, sni), PPinSha, pin);
            Get(q, PSni) == sni && PinOf(q) == pin && Get(q, PVcn) == ""
  {
    hide NormalPin;
    assert Blank("");
  }

  lemma HysteriaRoundTrip(u: Url, title: string)
    requires ParseHysteria2(u).Ok?
    ensures ComesBack(Hysteria2(u), title) <==> Carries(Hysteria2(u))
  {
    hide OutboundOf, OutboundLink, PrintedFragment, DecodeFragment, Get, PinOf, SetIf, TlsFields, NormalPin;
    var sni, pin, vcn, auth := Get(u.query, PSni), PinOf(u.query), Get(u.query, PVcn), HysteriaAuth(u);
    PinNormal(u.query);
    HysteriaPrinted(u.host, u.port, auth, sni, pin, vcn, title);
    HysteriaReread(sni, pin);
    var settings := map[Version := JNum(2), Address := JStr(u.host), Port := JNum(u.port)];
    OutboundFields("hysteria", settings, HysteriaStream(sni, pin, vcn, auth));
    OutboundFields("hysteria", settings, HysteriaStream(sni, pin, "", auth));
    TlsFieldsRead(sni, "", None, pin, vcn);
    TlsFieldsRead(sni, "", None, pin, "");
    assert Field(HysteriaStream(sni, pin, vcn, auth), TlsSettings) == JObj(TlsFields(sni, "", None, pin, vcn));
    assert Field(HysteriaStream(sni, pin, "", auth), TlsSettings) == JObj(TlsFields(sni, "", None, pin, ""));
  }

  lemma PinNormal(q: Query)
    ensures NormalPin(PinOf(q)) == PinOf(q)
  {
    hide NormalPin;
    PinIdempotent(OrDefault(Get(q, PPcs), Get(q, PPinSha)));
  }

  // ---- vmess -----------------------------------------------------------------------------------

  lemma VmessWalk(host: string, port: int, user: Object, stream: Object, title: string)
    requires host != "" && port != 0 && Str(Field(user, Id)) != ""
    ensures OutboundLink(OutboundOf("vmess", VnextSettings(host, port, user), stream), title) ==
            Ok(Vmess(Payload(PrintedVMess(ServerAt(host, port, user), user, StreamQuery(stream), title))))
  {
    hide StreamQuery, KindOf, OutboundOf, PrintedVMess;
    KindNames();
    var settings := VnextSettings(host, port, user);
    OutboundFields("vmess", settings, stream);
    var srv := ServerAt(host, port, user);
    assert ServerOf(settings, Vnext) == srv;
    assert Field(srv, Address) == JStr(host) && Field(srv, Port) == JNum(port) && UserOf(srv) == user;
  }

  lemma VmessPrinted(host: string, port: int, id: string, alterId: int, security: string, stream: Object, title: string)
    requires host != "" && port != 0 && id != "" && !Blank(security)
    ensures var user := VMessUser(id, alterId, security);
            var v := PrintedVMess(ServerAt(host, port, user), user, StreamQuery(stream), title);
            && OutboundLink(OutboundOf("vmess", VnextSettings(host, port, user), stream), title) ==
                 Ok(Vmess(Payload(v)))
            && v.add == host && ToInt(v.port) == port && v.id == id && ToInt(v.aid) == alterId && v.scy == security &&
                 v.ps == title
            && Printed(v, StreamQuery(stream))
  {
    hide StreamQuery, OutboundLink, OutboundOf, VnextSettings, Get, FormatInt, ParseInt, TrimSpace, Blank;
    var user := VMessUser(id, alterId, security);
    var srv := ServerAt(host, port, user);
    assert Field(srv, Address) == JStr(host) && Field(srv, Port) == JNum(port);
    assert Field(user, Id) == JStr(id) && Field(user, AlterId) == JNum(alterId) &&
        Field(user, Security) == JStr(security);
    VmessWalk(host, port, user, stream, title);
    ParseFormatInt(port);
    ParseFormatInt(alterId);
    TrimmedIsFixed(FormatInt(port));
    TrimmedIsFixed(FormatInt(alterId));
  }

  // What a vmess payload printed from a query carries of it.
  predicate Printed(v: VMess, q: Query) {
    && v.net == Get(q, PType) && v.header == OrDefault(Get(q, PHeaderType), "none") && v.host == Get(q, PHost)
    && v.path == (if Get(q, PType) == "grpc" then Get(q, PServiceName) else Get(q, PPath)) && v.tls == Get(q, PSecurity)
    && v.sni == Get(q, PSni) && v.alpn == Get(q, PAlpn) && v.fp == Get(q, PFp) && v.pcs == Get(q, PPcs) &&
         v.vcn == Get(q, PVcn)
  }

  // The options a vmess payload can have said.
  predicate VMessSane(n: NetFacts, s: SecFacts) {
    && (n.OverGrpc? ==> !n.multi) && (n.OverXhttp? ==> n.mode == "auto")
    && (s.WithReality? ==> s.pbk == "" && s.sid == "" && s.spx == "")
  }

  lemma VMessOptions(v: VMess)
    ensures VMessSane(NetOf(VMessQuery(v)), SecOf(VMessQuery(v)))
  {
    hide NormNetwork, SecurityOf, HeaderIsHttp, SplitComma, PinOf;
    var q := VMessQuery(v);
    assert Get(q, PMode) == "" && Get(q, PPbk) == "" && Get(q, PSid) == "" && Get(q, PSpx) == "";
    assert Blank("");
  }

  lemma VMessSecurityReread(v: VMess, q: Query, s: SecFacts)
    requires Printed(v, q) && SaysSecurity(q, s) && SaneSec(s)
    requires s.WithReality? ==> s.pbk == "" && s.sid == "" && s.spx == ""
    ensures SecOf(VMessQuery(v)) == s <==> Carried(s)
  {
    hide Join, SecOf, SaneSec, Carried, OrDefault, VMessQuery, Get;
    VMessQueryReads(v);
    SecurityReread(s, VMessQuery(v));
  }

  lemma VMessQueryReads(v: VMess)
    ensures var r := VMessQuery(v);
            && Get(r, PSecurity) == v.tls && Get(r, PSni) == v.sni && Get(r, PFp) == v.fp && Get(r, PAlpn) == v.alpn
            && Get(r, PPcs) == v.pcs && Get(r, PVcn) == v.vcn && Get(r, PPbk) == Get(r, PSid) == Get(r, PSpx) == ""
            && Unset(r, UnprintedParams())
  {
  }

  lemma GrpcName(n: Net)
    ensures NetName(n) == "grpc" <==> n == Grpc
  {
    NamedBack(n);
    NamedBack(Grpc);
  }

  lemma BlankIsNotHttp(h: string)
    ensures HeaderIsHttp(OrDefault(h, "none")) == HeaderIsHttp(h)
  {
    assert ToLower("none")[0] == 'n';
    if Blank(h) && h != "" { assert ToLower(h)[0] == LowerChar(h[0]) && IsSpace(h[0]); }
  }

  lemma VMessNetReread(v: VMess, q: Query, n: NetFacts)
    requires Printed(v, q) && NetOf(q) == n && Get(q, PType) == NetName(Carrier(n))
    requires (n.OverGrpc? ==> !n.multi) && (n.OverXhttp? ==> n.mode == "auto")
    ensures NetOf(VMessQuery(v)) == n
  {
    hide NormNetwork, NetName, HeaderIsHttp;
    NetNameBack(Carrier(n));
    GrpcName(Carrier(n));
    BlankIsNotHttp(Get(q, PHeaderType));
    var r := VMessQuery(v);
    assert Get(r, PType) == Get(q, PType) && Get(r, PHost) == Get(q, PHost) && Get(r, PMode) == "";
    assert Get(r, PHeaderType) == v.header && Get(r, PServiceName) == v.path && Get(r, PPath) == v.path;
    assert Blank("") && "" != "multi";
  }

  lemma VmessRoundTrip(v: VMess, title: string)
    requires ParseVmess(Payload(v)).Ok?
    ensures ComesBack(Vmess(Payload(v)), title) <==> Carries(Vmess(Payload(v)))
  {
    hide NetOf, SecOf, StreamObject, StreamQuery, OutboundOf, VnextSettings, VMessUser, OutboundLink, Carried,
         QueryCarried, SaneNet, SaneSec,
         Get, SecurityOf, SaysSecurity, PrintedFragment, VMessQuery, Printed, PrintedVMess, ToInt, Unset, ServerAt;
    var q := VMessQuery(v);
    var n, s := NetOf(q), SecOf(q);
    var stream := StreamObject(n, s);
    NetOfSane(q);
    SecOfSane(q, "");
    VMessOptions(v);
    QuerySays(n, s);
    CarriedMeans(q, "h");
    assert Get(q, PSecurity) == v.tls by { VMessTls(v); }
    var scy := OrDefault(v.scy, "auto");
    assert !Blank("auto") by { assert "auto"[0] == 'a'; }
    VmessPrinted(v.add, ToInt(v.port), v.id, ToInt(v.aid), scy, stream, title);
    var settings := VnextSettings(v.add, ToInt(v.port), VMessUser(v.id, ToInt(v.aid), scy));
    var user := VMessUser(v.id, ToInt(v.aid), scy);
    var w := PrintedVMess(ServerAt(v.add, ToInt(v.port), user), user, StreamQuery(stream), title);
    VMessSecurityReread(w, StreamQuery(stream), s);
    VMessNetReread(w, StreamQuery(stream), n);
    SecOfSane(VMessQuery(w), "");
    Reread("vmess", settings, n, s, SecOf(VMessQuery(w)));
  }

  lemma VMessTls(v: VMess)
    ensures Get(VMessQuery(v), PSecurity) == v.tls
  {
  }

  // ---- shadowsocks ------------------------------------------------------------------------------

  lemma SsPrinted(host: string, port: int, m: string, password: string, title: string)
    requires host != "" && port != 0 && m != ""
    ensures OutboundLink(OutboundOf("shadowsocks", SsSettings(host, port, m, password), map[]), title) ==
            Ok(Ss(Encoded(m + ":" + password), host, port, PrintedFragment(title)))
  {
    hide KindOf, OutboundOf, PrintedFragment;
    KindNames();
    var settings := SsSettings(host, port, m, password);
    OutboundFields("shadowsocks", settings, map[]);
    var srv := Obj(Items(Field(settings, Servers))[0]);
    assert ServerOf(settings, Servers) == srv;
    assert Field(srv, Address) == JStr(host) && Field(srv, Port) == JNum(port);
    assert Field(srv, Method) == JStr(m) && Field(srv, Password) == JStr(password);
  }

  lemma MethodPassBack(s: string)
    requires SplitMethodPass(s).Some?
    ensures var (m, p) := SplitMethodPass(s).value;
            m != "" && SplitMethodPass(m + ":" + p) == Some((m, p))
  {
    CutParts(s, ':');
    var (m, p) := SplitMethodPass(s).value;
    CutAt(m, ':', p);
  }

  lemma SsRoundTrip(l: Link, title: string)
    requires l.Ss? || l.SsLegacy?
    requires ParseLink(l).Ok?
    ensures ComesBack(l, title) <==> Carries(l)
  {
    hide OutboundOf, OutboundLink, PrintedFragment, DecodeFragment, SsSettings, ReadableHost, Cut, CutLast, ParseInt;
    var mp: (string, string), host: string, port: int;
    if l.Ss? {
      host, port, mp := l.host, l.port, SplitMethodPass(l.userinfo.text).value;
      MethodPassBack(l.userinfo.text);
    } else {
      var parts := LegacyParts(l.text).value;
      mp, host, port := parts.0, parts.1, parts.2;
      MethodPassBack(CutLast(l.text.text, '@').value.0);
    }
    SsPrinted(host, port, mp.0, mp.1, title);
  }

  // The outbound a share link stands for, printed as a link and parsed again, is
  // the same outbound exactly when Carries: a server name, certificate pin or
  // alpn list that is nothing but spaces is lost, a legacy ss payload can hold
  // an endpoint no URL can, and a hysteria2 link never carries vcn back.
  lemma RoundTrip(l: Link, title: string)
    requires ParseLink(l).Ok?
    ensures ComesBack(l, title) <==> Carries(l)
  {
    hide *;
    match l
    case Vless(u) => assert ParseVless(u).Ok? by { VlessIs(u); } VlessRoundTrip(u, title);
    case Trojan(u) => TrojanIs(u); TrojanRoundTrip(u, title);
    case Hysteria2(u) => HysteriaIs(u); HysteriaRoundTrip(u, title);
    case Vmess(p) => VmessIs(p); VmessRoundTrip(p.v, title);
    case _ => SsRoundTrip(l, title);
  }

  lemma VlessIs(u: Url) ensures ParseLink(Vless(u)) == ParseVless(u) { hide ParseVless; }
  lemma TrojanIs(u: Url) ensures ParseLink(Trojan(u)) == ParseTrojan(u) { hide ParseTrojan; }
  lemma HysteriaIs(u: Url) ensures ParseLink(Hysteria2(u)) == ParseHysteria2(u) { hide ParseHysteria2; }

  lemma VmessIs(p: VMessPayload)
    ensures ParseLink(Vmess(p)) == ParseVmess(p) && (ParseVmess(p).Ok? ==> p.Payload?)
  {
    hide OutboundOf, VnextSettings, VMessUser, StreamObject, NetOf, SecOf, VMessQuery, ToInt, OrDefault;
  }

  // Links that parse and do not come back: a peer of one space, a pin of one
  // tab, and a hysteria2 link with vcn.
  lemma LostOptions(title: string)
    ensures var u := Url("id", "", "h", 443, map[PSecurity := "tls", PPeer := " "], "");
            ParseLink(Vless(u)).Ok? && !ComesBack(Vless(u), title)
    ensures var u := Url("id", "", "h", 443, map[PSecurity := "tls", PPcs := ":\t"], "");
            ParseLink(Vless(u)).Ok? && !ComesBack(Vless(u), title)
    ensures var u := Url("id", "", "h", 443, map[PVcn := "n"], "");
            ParseLink(Hysteria2(u)).Ok? && !ComesBack(Hysteria2(u), title)
  {
    LostPeer();
    LostPin();
    LostVcn();
    hide *;
    RoundTrip(Vless(Url("id", "", "h", 443, map[PSecurity := "tls", PPeer := " "], "")), title);
    RoundTrip(Vless(Url("id", "", "h", 443, map[PSecurity := "tls", PPcs := ":\t"], "")), title);
    RoundTrip(Hysteria2(Url("id", "", "h", 443, map[PVcn := "n"], "")), title);
  }

  lemma LostPeer()
    ensures var l := Vless(Url("id", "", "h", 443, map[PSecurity := "tls", PPeer := " "], ""));
            ParseLink(l).Ok? && !Carries(l)
  {
    hide StreamObject, NetOf, SecOf;
    SecurityNames();
    assert ReadableHost("h");
    var q: Query := map[PSecurity := "tls", PPeer := " "];
    assert Get(q, PSecurity) == "tls" && Get(q, PSni) == "" && Get(q, PPeer) == " ";
    assert Blank(" ") && Blank("") && " " != "";
    assert !NameCarried(q);
  }

  lemma LostPin()
    ensures var l := Vless(Url("id", "", "h", 443, map[PSecurity := "tls", PPcs := ":\t"], ""));
            ParseLink(l).Ok? && !Carries(l)
  {
    hide StreamObject, NetOf, SecOf;
    SecurityNames();
    assert ReadableHost("h");
    var q: Query := map[PSecurity := "tls", PPcs := ":\t"];
    assert Get(q, PSecurity) == "tls" && Get(q, PPcs) == ":\t";
    assert !Blank(":\t") by { assert ":\t"[0] == ':'; }
    TabPin();
    assert Blank("\t") && "\t" != "";
    assert !PinCarried(q);
  }

  lemma TabPin()
    ensures NormalPin(":\t") == "\t"
  {
    SplitNoSep(":\t", ',');
    assert ":\t"[1..] == "\t" && "\t"[1..] == "";
    assert Squeeze("\t") == "\t" && Squeeze(":\t") == "\t";
    assert ToLower("\t") == "\t";
    var parts := [":\t"];
    assert parts[..0] == [] && PinParts(parts) == ["\t"];
  }

  lemma LostVcn()
    ensures var l := Hysteria2(Url("id", "", "h", 443, map[PVcn := "n"], ""));
            ParseLink(l).Ok? && !Carries(l)
  {
    hide PinOf;
    assert ReadableHost("h");
    var q: Query := map[PVcn := "n"];
    assert Get(q, PVcn) == "n" && "n" != "";
  }
}
