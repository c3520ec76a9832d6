// Transport and security options: share-link parameters to streamSettings and
// back (core/xray/link.go: buildStream; core/xray/entrylink.go: streamQuery).
module StreamSettings {
  import opened Text
  import opened Wrappers

  // The object fields and link parameters the code names.
  datatype Key =
    | Network | Security | Header | Type | Request | Headers | HostName | Host | Path | ModeKey
    | ServiceName | MultiMode
    | TcpSettings | WsSettings | HttpUpgradeSettings | GrpcSettings | HttpSettings | XhttpSettings
    | TlsSettings | RealitySettings | HysteriaSettings | ServerName | Fingerprint | Alpn | PinnedCert | VerifyName
    | PublicKey | ShortId | SpiderX
    | Protocol | Settings | Stream | Vnext | Servers | Address | Port | Users | Id | Encryption | Flow | AlterId
    | Method | Password | Version | Auth | OtherKey(name: string)

  datatype Param =
    | PType | PSecurity | PHost | PPath | PMode | PServiceName | PHeaderType | PSni | PPeer | PFp | PAlpn | PPcs
    | PPinSha | PVcn | PPbk | PSid | PSpx | PEncryption | PFlow | OtherParam(name: string)

  datatype Json =
    | JNull | JBool(b: bool) | JNum(n: int) | JStr(s: string)
    | JArr(items: seq<Json>) | JObj(fields: map<Key, Json>)

  type Object = map<Key, Json>
  type Query = map<Param, string>

  function Get(q: Query, k: Param): string {
    if k in q then q[k] else ""
  }

  function SetIf(q: Query, k: Param, v: string): Query {
    if v == "" then q else q[k := v]
  }

  function Put(o: Object, k: Key, v: string): Object {
    if v == "" then o else o[k := JStr(v)]
  }

  function Field(o: Object, k: Key): Json {
    if k in o then o[k] else JNull
  }

  function Obj(v: Json): Object {
    if v.JObj? then v.fields else map[]
  }

  function Items(v: Json): seq<Json> {
    if v.JArr? then v.items else []
  }

  function Str(v: Json): string {
    match v
    case JStr(s) => s
    case JNum(n) => FormatInt(n)
    case _ => ""
  }

  function NonEmptyStrs(items: seq<Json>): seq<string> {
    if items == [] then [] else (if Str(items[0]) == "" then [] else [Str(items[0])]) + NonEmptyStrs(items[1..])
  }

  function Strs(v: Json): seq<string> {
    match v
    case JStr(s) => SplitComma(s)
    case JArr(items) => NonEmptyStrs(items)
    case _ => []
  }

  function StrArr(ss: seq<string>): Json {
    JArr(seq(|ss|, i requires 0 <= i < |ss| => JStr(ss[i])))
  }

  // ---- comma lists ---------------------------------------------------------------

  function TrimmedParts(parts: seq<string>): seq<string> {
    if parts == [] then []
    else TrimmedParts(parts[..|parts| - 1]) +
         if TrimSpace(parts[|parts| - 1]) == "" then [] else [TrimSpace(parts[|parts| - 1])]
  }

  function SplitComma(s: string): seq<string> {
    TrimmedParts(Split(s, ','))
  }

  method SplitCommaList(s: string) returns (out: seq<string>)
    ensures out == SplitComma(s)
  {
    out := [];
    var parts := Split(s, ',');
    for i := 0 to |parts|
      invariant out == TrimmedParts(parts[..i])
    {
      var p := TrimSpace(parts[i]);
      assert parts[..i + 1][..i] == parts[..i];
      if p != "" { out := out + [p]; }
    }
    assert parts[..|parts|] == parts;
  }

  predicate CleanList(parts: seq<string>) {
    forall p :: p in parts ==> p != "" && Trimmed(p) && ',' !in p
  }

  lemma {:induction false} TrimmedPartsClean(parts: seq<string>)
    requires forall p :: p in parts ==> ',' !in p
    ensures CleanList(TrimmedParts(parts))
  {
    if parts != [] {
      var last := parts[|parts| - 1];
      TrimmedPartsClean(parts[..|parts| - 1]);
      TrimSpaceTrims(last);
      TrimSpacePart(last);
    }
  }

  lemma {:induction false} TrimmedPartsFixed(parts: seq<string>)
    requires CleanList(parts)
    ensures TrimmedParts(parts) == parts
  {
    if parts != [] {
      TrimmedPartsFixed(parts[..|parts| - 1]);
      TrimmedIsFixed(parts[|parts| - 1]);
      assert parts == parts[..|parts| - 1] + [parts[|parts| - 1]];
    }
  }

  lemma SplitCommaClean(s: string)
    ensures CleanList(SplitComma(s))
  {
    SplitPartsClean(s, ',');
    TrimmedPartsClean(Split(s, ','));
  }

  // A cleaned list survives being joined and split again.
  lemma SplitCommaJoin(parts: seq<string>)
    requires CleanList(parts) && parts != []
    ensures SplitComma(Join(parts, ',')) == parts
    ensures Join(parts, ',') != ""
  {
    SplitJoin(parts, ',');
    TrimmedPartsFixed(parts);
    if |parts| == 1 { assert parts[0] in parts; }
  }

  lemma {:induction false} StrArrBack(ss: seq<string>)
    requires "" !in ss
    ensures Strs(StrArr(ss)) == ss
  {
    if ss != [] {
      StrArrBack(ss[1..]);
      assert StrArr(ss).items[1..] == StrArr(ss[1..]).items;
      assert ss[0] in ss && ss == [ss[0]] + ss[1..];
    }
  }

  // ---- certificate pins ------------------------------------------------------------

  function Squeeze(s: string): string {
    if s == [] then [] else (if s[0] == ':' || s[0] == ' ' then [] else [s[0]]) + Squeeze(s[1..])
  }

  function PinParts(parts: seq<string>): seq<string> {
    if parts == [] then []
    else PinParts(parts[..|parts| - 1]) +
         if ToLower(Squeeze(parts[|parts| - 1])) == "" then [] else [ToLower(Squeeze(parts[|parts| - 1]))]
  }

  function NormalPin(s: string): string {
    Join(PinParts(Split(s, ',')), ',')
  }

  method NormalizeCertPin(s: string) returns (pin: string)
    ensures pin == NormalPin(s)
  {
    var out := [];
    var parts := Split(s, ',');
    for i := 0 to |parts|
      invariant out == PinParts(parts[..i])
    {
      var p := ToLower(Squeeze(parts[i]));
      assert parts[..i + 1][..i] == parts[..i];
      if p != "" { out := out + [p]; }
    }
    assert parts[..|parts|] == parts;
    pin := Join(out, ',');
  }

  predicate PinChar(c: char) {
    c != ':' && c != ' ' && c != ',' && !('A' <= c <= 'Z')
  }

  predicate PinWord(p: string) {
    forall i :: 0 <= i < |p| ==> PinChar(p[i])
  }

  predicate PinList(parts: seq<string>) {
    forall p :: p in parts ==> p != "" && PinWord(p)
  }

  lemma {:induction false} SqueezeOut(s: string)
    ensures forall c :: c in Squeeze(s) ==> c in s && c != ':' && c != ' '
  {
    if s != [] { SqueezeOut(s[1..]); }
  }

  lemma {:induction false} SqueezeFixed(s: string)
    requires PinWord(s)
    ensures Squeeze(s) == s && ToLower(s) == s
  {
    if s != [] {
      assert PinChar(s[0]);
      SqueezeFixed(s[1..]);
      assert s == [s[0]] + s[1..];
    }
  }

  lemma {:induction false} PinPartsClean(parts: seq<string>)
    requires forall p :: p in parts ==> ',' !in p
    ensures PinList(PinParts(parts))
  {
    if parts != [] {
      var last := parts[|parts| - 1];
      PinPartsClean(parts[..|parts| - 1]);
      SqueezeOut(last);
      var p := ToLower(Squeeze(last));
      forall i | 0 <= i < |p| ensures PinChar(p[i]) { assert Squeeze(last)[i] in Squeeze(last); }
    }
  }

  lemma {:induction false} PinPartsFixed(parts: seq<string>)
    requires PinList(parts)
    ensures PinParts(parts) == parts
  {
    if parts != [] {
      assert parts[|parts| - 1] in parts;
      PinPartsFixed(parts[..|parts| - 1]);
      SqueezeFixed(parts[|parts| - 1]);
      assert parts == parts[..|parts| - 1] + [parts[|parts| - 1]];
    }
  }

  // Normalising is idempotent: a stored pin is read back as it stands.
  lemma PinIdempotent(s: string)
    ensures NormalPin(NormalPin(s)) == NormalPin(s)
  {
    SplitPartsClean(s, ',');
    var parts := PinParts(Split(s, ','));
    PinPartsClean(Split(s, ','));
    if parts != [] {
      SplitJoin(parts, ',');
      PinPartsFixed(parts);
    } else {
      SqueezeFixed("");
      assert Split("", ',') == [""] && PinParts([""]) == [];
    }
  }

  // ---- network and security -----------------------------------------------------------

  datatype Net = Tcp | Ws | Grpc | Http | Xhttp | HttpUpgrade | Kcp | Quic

  function NormNetwork(t: string): Net {
    NamedNetwork(ToLower(TrimSpace(t)))
  }

  function NamedNetwork(s: string): Net {
    if s == "" || s == "tcp" || s == "raw" then Tcp
    else if s == "ws" || s == "websocket" then Ws
    else if s == "grpc" || s == "gun" then Grpc
    else if s == "h2" || s == "http" then Http
    else if s == "xhttp" || s == "splithttp" then Xhttp
    else if s == "httpupgrade" then HttpUpgrade
    else if s == "kcp" || s == "mkcp" then Kcp
    else if s == "quic" then Quic
    else Tcp
  }

  function NetName(n: Net): string {
    match n
    case Tcp => "tcp"
    case Ws => "ws"
    case Grpc => "grpc"
    case Http => "http"
    case Xhttp => "xhttp"
    case HttpUpgrade => "httpupgrade"
    case Kcp => "kcp"
    case Quic => "quic"
  }

  predicate LowerWord(s: string) {
    forall i :: 0 <= i < |s| ==> 'a' <= s[i] <= 'z'
  }

  lemma {:induction false} LowerWordFixed(s: string)
    requires LowerWord(s)
    ensures ToLower(s) == s && TrimSpace(s) == s
  {
    if s != [] {
      LowerWordFixed(s[1..]);
      assert s == [s[0]] + s[1..];
    }
    TrimmedIsFixed(s);
  }

  lemma NamedBack(n: Net)
    ensures NamedNetwork(NetName(n)) == n && LowerWord(NetName(n))
  {
    match n
    case Ws => assert NetName(n)[0] == 'w';
    case Kcp => assert NetName(n)[0] == 'k';
    case Grpc => assert NetName(n)[0] == 'g';
    case Http => assert NetName(n)[0] == 'h';
    case Quic => assert NetName(n)[0] == 'q';
    case _ =>
  }

  // A network's own name is read back as that network.
  lemma NetNameBack(n: Net)
    ensures NormNetwork(NetName(n)) == n
  {
    hide NamedNetwork, NetName;
    NamedBack(n);
    LowerWordFixed(NetName(n));
  }

  datatype Sec = Plain | Tls | Reality

  function SecurityOf(s: string): Sec {
    var t := ToLower(s);
    if t == "reality" then Reality else if t == "" || t == "none" then Plain else Tls
  }

  lemma SecurityNames()
    ensures SecurityOf("tls") == Tls && SecurityOf("reality") == Reality && SecurityOf("") == Plain
  {
    assert ToLower("tls") == "tls" && ToLower("reality") == "reality" && ToLower("") == "";
  }

  // ---- what a query says ----------------------------------------------------------------

  datatype SecFacts =
    | NoSecurity
    | WithTls(sni: string, fp: string, alpn: Option<seq<string>>, pin: string, vcn: string)
    | WithReality(sni: string, fp: string, pbk: string, sid: string, spx: string)

  datatype NetFacts =
    | OverTcp
    | OverTcpHttp(host: string)
    | OverWs(path: string, host: string)
    | OverHttpUpgrade(path: string, host: string)
    | OverGrpc(serviceName: string, multi: bool)
    | OverHttp(path: string, host: string)
    | OverXhttp(path: string, mode: string, host: string)
    | OverKcp
    | OverQuic

  function SniOf(q: Query, fallback: string): string {
    var sni := OrDefault(Get(q, PSni), Get(q, PPeer));
    if sni == "" then fallback else sni
  }

  function PinOf(q: Query): string {
    NormalPin(OrDefault(Get(q, PPcs), Get(q, PPinSha)))
  }

  function AlpnOf(q: Query): Option<seq<string>> {
    if Get(q, PAlpn) == "" then None else Some(SplitComma(Get(q, PAlpn)))
  }

  function TlsOf(q: Query, fallback: string): SecFacts {
    WithTls(SniOf(q, fallback), Get(q, PFp), AlpnOf(q), PinOf(q), Get(q, PVcn))
  }

  function SecOf(q: Query): SecFacts {
    match SecurityOf(Get(q, PSecurity))
    case Plain => NoSecurity
    case Tls => TlsOf(q, "")
    case Reality => WithReality(SniOf(q, ""), Get(q, PFp), Get(q, PPbk), Get(q, PSid), Get(q, PSpx))
  }

  predicate HeaderIsHttp(s: string) { ToLower(s) == "http" }

  function NetOf(q: Query): NetFacts {
    var host, path := Get(q, PHost), OrDefault(Get(q, PPath), "/");
    match NormNetwork(Get(q, PType))
    case Tcp => if HeaderIsHttp(Get(q, PHeaderType)) then OverTcpHttp(host) else OverTcp
    case Ws => OverWs(path, host)
    case HttpUpgrade => OverHttpUpgrade(path, host)
    case Grpc => OverGrpc(Get(q, PServiceName), Get(q, PMode) == "multi")
    case Http => OverHttp(path, host)
    case Xhttp => OverXhttp(path, OrDefault(Get(q, PMode), "auto"), host)
    case Kcp => OverKcp
    case Quic => OverQuic
  }

  function Carrier(n: NetFacts): Net {
    match n
    case OverTcp => Tcp
    case OverTcpHttp(_) => Tcp
    case OverWs(_, _) => Ws
    case OverHttpUpgrade(_, _) => HttpUpgrade
    case OverGrpc(_, _) => Grpc
    case OverHttp(_, _) => Http
    case OverXhttp(_, _, _) => Xhttp
    case OverKcp => Kcp
    case OverQuic => Quic
  }

  // ---- streamSettings ------------------------------------------------------------------------

  function TlsFields(sni: string, fp: string, alpn: Option<seq<string>>, pin: string, vcn: string): Object {
    var t := Put(Put(map[], ServerName, sni), Fingerprint, fp);
    var t := if alpn.None? then t else t[Alpn := StrArr(alpn.value)];
    Put(Put(t, PinnedCert, pin), VerifyName, vcn)
  }

  function TlsObject(s: SecFacts): Object
    requires s.WithTls?
  {
    TlsFields(s.sni, s.fp, s.alpn, s.pin, s.vcn)
  }

  function RealityObject(s: SecFacts): Object
    requires s.WithReality?
  {
    Put(Put(Put(Put(Put(map[], ServerName, s.sni), Fingerprint, s.fp), PublicKey, s.pbk), ShortId, s.sid), SpiderX,
        s.spx)
  }

  function WithSecurity(o: Object, s: SecFacts): Object {
    match s
    case NoSecurity => o
    case WithTls(_, _, _, _, _) => o[Security := JStr("tls")][TlsSettings := JObj(TlsObject(s))]
    case WithReality(_, _, _, _, _) => o[Security := JStr("reality")][RealitySettings := JObj(RealityObject(s))]
  }

  function HostHeader(o: Object, host: string): Object {
    if host == "" then o else o[Headers := JObj(map[HostName := JStr(host)])]
  }

  function TcpHeader(host: string): Object {
    var h := map[Type := JStr("http")];
    if host == "" then h
    else h[Request := JObj(map[Headers := JObj(map[HostName := StrArr([host])])])]
  }

  // The block that carries a transport's own options, if it has any.
  function TransportKey(n: Net): Option<Key> {
    match n
    case Tcp => Some(TcpSettings)
    case Ws => Some(WsSettings)
    case HttpUpgrade => Some(HttpUpgradeSettings)
    case Grpc => Some(GrpcSettings)
    case Http => Some(HttpSettings)
    case Xhttp => Some(XhttpSettings)
    case Kcp => None
    case Quic => None
  }

  function TransportBlock(n: NetFacts): Option<Object> {
    match n
    case OverTcpHttp(host) => Some(map[Header := JObj(TcpHeader(host))])
    case OverWs(path, host) => Some(HostHeader(map[Path := JStr(path)], host))
    case OverHttpUpgrade(path, host) => Some(Put(map[Path := JStr(path)], Host, host))
    case OverGrpc(name, multi) =>
      var g := map[ServiceName := JStr(name)];
      Some(if multi then g[MultiMode := JBool(true)] else g)
    case OverHttp(path, host) =>
      var h := map[Path := JStr(path)];
      Some(if host == "" then h else h[Host := StrArr([host])])
    case OverXhttp(path, mode, host) =>
      Some(Put(map[Path := JStr(path), ModeKey := JStr(mode)], Host, host))
    case _ => None
  }

  function WithTransport(o: Object, n: NetFacts): Object {
    match (TransportKey(Carrier(n)), TransportBlock(n))
    case (Some(k), Some(b)) => o[k := JObj(b)]
    case _ => o
  }

  function StreamObject(n: NetFacts, s: SecFacts): Object {
    WithTransport(WithSecurity(map[Network := JStr(NetName(Carrier(n)))], s), n)
  }

  // The fields of a stream object, one by one.
  lemma StreamFields(n: NetFacts, s: SecFacts)
    ensures var o := StreamObject(n, s);
            && Field(o, Network) == JStr(NetName(Carrier(n)))
            && Field(o, Security) == (if s.NoSecurity? then JNull else JStr(if s.WithTls? then "tls" else "reality"))
            && (Security in o <==> !s.NoSecurity?)
            && (s.WithTls? ==> Field(o, TlsSettings) == JObj(TlsObject(s)))
            && (s.WithReality? ==> Field(o, RealitySettings) == JObj(RealityObject(s)))
            && (TransportKey(Carrier(n)).Some? ==>
                  Obj(Field(o, TransportKey(Carrier(n)).value)) ==
                      (if TransportBlock(n).Some? then TransportBlock(n).value else map[]))
  {
    hide NetName, TlsObject, RealityObject, TransportBlock;
  }

  // ---- building streamSettings from a query ------------------------------------------------

  method ApplyCertPin(tls: Object, q: Query) returns (out: Object)
    ensures out == Put(Put(tls, PinnedCert, PinOf(q)), VerifyName, Get(q, PVcn))
  {
    hide NormalPin, OrDefault;
    out := tls;
    var pin := NormalizeCertPin(OrDefault(Get(q, PPcs), Get(q, PPinSha)));
    if pin != "" { out := out[PinnedCert := JStr(pin)]; }
    var vcn := Get(q, PVcn);
    if vcn != "" { out := out[VerifyName := JStr(vcn)]; }
  }

  method ApplyTLS(stream: Object, q: Query, fallback: string) returns (out: Object)
    ensures out == stream[TlsSettings := JObj(TlsObject(TlsOf(q, fallback)))]
  {
    hide SplitComma, StrArr, OrDefault, PinOf;
    var tls: Object := map[];
    var sni := OrDefault(Get(q, PSni), Get(q, PPeer));
    if sni == "" { sni := fallback; }
    if sni != "" { tls := tls[ServerName := JStr(sni)]; }
    var fp := Get(q, PFp);
    if fp != "" { tls := tls[Fingerprint := JStr(fp)]; }
    var alpn := Get(q, PAlpn);
    if alpn != "" {
      var list := SplitCommaList(alpn);
      tls := tls[Alpn := StrArr(list)];
    }
    tls := ApplyCertPin(tls, q);
    out := stream[TlsSettings := JObj(tls)];
  }

  method RealitySettingsOf(q: Query) returns (r: Object)
    ensures r == RealityObject(WithReality(SniOf(q, ""), Get(q, PFp), Get(q, PPbk), Get(q, PSid), Get(q, PSpx)))
  {
    r := map[];
    var sni := OrDefault(Get(q, PSni), Get(q, PPeer));
    if sni != "" { r := r[ServerName := JStr(sni)]; }
    if Get(q, PFp) != "" { r := r[Fingerprint := JStr(Get(q, PFp))]; }
    if Get(q, PPbk) != "" { r := r[PublicKey := JStr(Get(q, PPbk))]; }
    if Get(q, PSid) != "" { r := r[ShortId := JStr(Get(q, PSid))]; }
    if Get(q, PSpx) != "" { r := r[SpiderX := JStr(Get(q, PSpx))]; }
  }

  method ApplySecurity(stream: Object, q: Query) returns (out: Object)
    ensures out == WithSecurity(stream, SecOf(q))
  {
    hide SecurityOf, TlsObject, RealityObject;
    out := stream;
    match SecurityOf(Get(q, PSecurity)) {
      case Reality =>
        out := out[Security := JStr("reality")];
        var r := RealitySettingsOf(q);
        out := out[RealitySettings := JObj(r)];
      case Tls =>
        out := out[Security := JStr("tls")];
        out := ApplyTLS(out, q, "");
      case Plain =>
    }
  }

  method BuildStream(q: Query) returns (stream: Object)
    ensures stream == StreamObject(NetOf(q), SecOf(q))
  {
    hide NormNetwork, NetName, SecOf, WithSecurity, HeaderIsHttp;
    var network := NormNetwork(Get(q, PType));
    stream := map[Network := JStr(NetName(network))];
    stream := ApplySecurity(stream, q);
    var host, path := Get(q, PHost), OrDefault(Get(q, PPath), "/");
    match network {
      case Ws =>
        var ws := map[Path := JStr(path)];
        if host != "" { ws := ws[Headers := JObj(map[HostName := JStr(host)])]; }
        stream := stream[WsSettings := JObj(ws)];
      case HttpUpgrade =>
        var hu := map[Path := JStr(path)];
        if host != "" { hu := hu[Host := JStr(host)]; }
        stream := stream[HttpUpgradeSettings := JObj(hu)];
      case Grpc =>
        var g := map[ServiceName := JStr(Get(q, PServiceName))];
        if Get(q, PMode) == "multi" { g := g[MultiMode := JBool(true)]; }
        stream := stream[GrpcSettings := JObj(g)];
      case Http =>
        var h := map[Path := JStr(path)];
        if host != "" { h := h[Host := StrArr([host])]; }
        stream := stream[HttpSettings := JObj(h)];
      case Xhttp =>
        var x := map[Path := JStr(path), ModeKey := JStr(OrDefault(Get(q, PMode), "auto"))];
        if host != "" { x := x[Host := JStr(host)]; }
        stream := stream[XhttpSettings := JObj(x)];
      case Tcp =>
        if HeaderIsHttp(Get(q, PHeaderType)) {
          var hdr := map[Type := JStr("http")];
          if host != "" { hdr := hdr[Request := JObj(map[Headers := JObj(map[HostName := StrArr([host])])])]; }
          stream := stream[TcpSettings := JObj(map[Header := JObj(hdr)])];
        }
      case Kcp =>
      case Quic =>
    }
  }

  // ---- and back ---------------------------------------------------------------------------

  function RealityParams(q: Query, sni: string, fp: string, pbk: string, sid: string, spx: string): Query {
    SetIf(SetIf(SetIf(SetIf(SetIf(q, PSni, sni), PFp, fp), PPbk, pbk), PSid, sid), PSpx, spx)
  }

  function RealityQuery(q: Query, r: Object): Query {
    RealityParams(q[PSecurity := "reality"], Str(Field(r, ServerName)), Str(Field(r, Fingerprint)),
                  Str(Field(r, PublicKey)), Str(Field(r, ShortId)), Str(Field(r, SpiderX)))
  }

  function TlsParams(q: Query, sni: string, fp: string, alpn: string, pin: string, vcn: string): Query {
    SetIf(SetIf(SetIf(SetIf(SetIf(q, PSni, sni), PFp, fp), PAlpn, alpn), PPcs, pin), PVcn, vcn)
  }

  function TlsQuery(q: Query, t: Object): Query {
    TlsParams(q[PSecurity := "tls"], Str(Field(t, ServerName)), Str(Field(t, Fingerprint)),
              Join(Strs(Field(t, Alpn)), ','), Str(Field(t, PinnedCert)), Str(Field(t, VerifyName)))
  }

  function SecurityQuery(q: Query, stream: Object): Query {
    var s := Str(Field(stream, Security));
    if s == "reality" then RealityQuery(q, Obj(Field(stream, RealitySettings)))
    else if s == "tls" then TlsQuery(q, Obj(Field(stream, TlsSettings)))
    else q
  }

  function FirstHost(q: Query, hosts: seq<string>): Query {
    if hosts == [] then q else q[PHost := hosts[0]]
  }

  // What a transport's block says, printed, whatever else the query says.
  function BlockQuery(q: Query, network: Net, b: Object): Query {
    match network
    case Ws =>
      SetIf(SetIf(q, PPath, Str(Field(b, Path))), PHost,
            OrDefault(Str(Field(b, Host)), Str(Field(Obj(Field(b, Headers)), HostName))))
    case HttpUpgrade => SetIf(SetIf(q, PPath, Str(Field(b, Path))), PHost, Str(Field(b, Host)))
    case Grpc =>
      var q := SetIf(q, PServiceName, Str(Field(b, ServiceName)));
      if Field(b, MultiMode) == JBool(true) then q[PMode := "multi"] else q
    case Http => FirstHost(SetIf(q, PPath, Str(Field(b, Path))), Strs(Field(b, Host)))
    case Xhttp =>
      SetIf(SetIf(SetIf(q, PPath, Str(Field(b, Path))), PHost, Str(Field(b, Host))), PMode, Str(Field(b, ModeKey)))
    case Tcp =>
      var hdr := Obj(Field(b, Header));
      if Str(Field(hdr, Type)) != "http" then q
      else FirstHost(q[PHeaderType := "http"], Strs(Field(Obj(Field(Obj(Field(hdr, Request)), Headers)), HostName)))
    case Kcp => q
    case Quic => q
  }

  function TransportQuery(q: Query, stream: Object, network: Net): Query {
    match TransportKey(network)
    case Some(k) => BlockQuery(q, network, Obj(Field(stream, k)))
    case None => q
  }

  function StreamQuery(stream: Object): Query {
    var network := NormNetwork(Str(Field(stream, Network)));
    TransportQuery(SecurityQuery(map[PType := NetName(network)], stream), stream, network)
  }

  method PrintStream(stream: Object) returns (q: Query)
    ensures q == StreamQuery(stream)
  {
    hide NormNetwork, NetName, Str, Strs, Join;
    var network := NormNetwork(Str(Field(stream, Network)));
    q := map[PType := NetName(network)];
    var security := Str(Field(stream, Security));
    if security == "reality" {
      var r := Obj(Field(stream, RealitySettings));
      q := q[PSecurity := "reality"];
      q := SetIf(q, PSni, Str(Field(r, ServerName)));
      q := SetIf(q, PFp, Str(Field(r, Fingerprint)));
      q := SetIf(q, PPbk, Str(Field(r, PublicKey)));
      q := SetIf(q, PSid, Str(Field(r, ShortId)));
      q := SetIf(q, PSpx, Str(Field(r, SpiderX)));
    } else if security == "tls" {
      var t := Obj(Field(stream, TlsSettings));
      q := q[PSecurity := "tls"];
      q := SetIf(q, PSni, Str(Field(t, ServerName)));
      q := SetIf(q, PFp, Str(Field(t, Fingerprint)));
      q := SetIf(q, PAlpn, Join(Strs(Field(t, Alpn)), ','));
      q := SetIf(q, PPcs, Str(Field(t, PinnedCert)));
      q := SetIf(q, PVcn, Str(Field(t, VerifyName)));
    }
    assert q == SecurityQuery(map[PType := NetName(network)], stream);
    hide SecurityQuery, SetIf;
    match network {
      case Ws =>
        var ws := Obj(Field(stream, WsSettings));
        q := SetIf(q, PPath, Str(Field(ws, Path)));
        q := SetIf(q, PHost, OrDefault(Str(Field(ws, Host)), Str(Field(Obj(Field(ws, Headers)), HostName))));
      case HttpUpgrade =>
        var hu := Obj(Field(stream, HttpUpgradeSettings));
        q := SetIf(q, PPath, Str(Field(hu, Path)));
        q := SetIf(q, PHost, Str(Field(hu, Host)));
      case Grpc =>
        var g := Obj(Field(stream, GrpcSettings));
        q := SetIf(q, PServiceName, Str(Field(g, ServiceName)));
        if Field(g, MultiMode) == JBool(true) { q := q[PMode := "multi"]; }
      case Http =>
        var h := Obj(Field(stream, HttpSettings));
        q := SetIf(q, PPath, Str(Field(h, Path)));
        var hosts := Strs(Field(h, Host));
        if hosts != [] { q := q[PHost := hosts[0]]; }
      case Xhttp =>
        var x := Obj(Field(stream, XhttpSettings));
        q := SetIf(q, PPath, Str(Field(x, Path)));
        q := SetIf(q, PHost, Str(Field(x, Host)));
        q := SetIf(q, PMode, Str(Field(x, ModeKey)));
      case Tcp =>
        var hdr := Obj(Field(Obj(Field(stream, TcpSettings)), Header));
        if Str(Field(hdr, Type)) == "http" {
          q := q[PHeaderType := "http"];
          var hosts := Strs(Field(Obj(Field(Obj(Field(hdr, Request)), Headers)), HostName));
          if hosts != [] { q := q[PHost := hosts[0]]; }
        }
      case Kcp =>
      case Quic =>
    }
  }

  // ---- round trip -----------------------------------------------------------------------------

  // What every query's options satisfy.
  predicate SaneNet(n: NetFacts) {
    match n
    case OverWs(path, _) => !Blank(path)
    case OverHttpUpgrade(path, _) => !Blank(path)
    case OverHttp(path, _) => !Blank(path)
    case OverXhttp(path, mode, _) => !Blank(path) && !Blank(mode)
    case _ => true
  }

  predicate SaneSec(s: SecFacts) {
    s.WithTls? ==> (s.alpn.Some? ==> CleanList(s.alpn.value)) && NormalPin(s.pin) == s.pin
  }

  lemma NetOfSane(q: Query)
    ensures SaneNet(NetOf(q))
  {
    assert "/"[0] == '/' && "auto"[0] == 'a';
  }

  lemma SecOfSane(q: Query, fallback: string)
    ensures SaneSec(SecOf(q)) && SaneSec(TlsOf(q, fallback))
  {
    SplitCommaClean(Get(q, PAlpn));
    PinIdempotent(OrDefault(Get(q, PPcs), Get(q, PPinSha)));
  }

  // The options a share link's parameters can carry: a server name that is not
  // only spaces, an alpn list with an element, a pin that is not only spaces.
  predicate Carried(s: SecFacts) {
    match s
    case NoSecurity => true
    case WithTls(sni, _, alpn, pin, _) =>
      (Blank(sni) ==> sni == "") && (alpn.Some? ==> alpn.value != []) && (Blank(pin) ==> pin == "")
    case WithReality(sni, _, _, _, _) => Blank(sni) ==> sni == ""
  }

  predicate SaysSecurity(q: Query, s: SecFacts) {
    match s
    case NoSecurity => Get(q, PSecurity) == ""
    case WithTls(sni, fp, alpn, pin, vcn) =>
      && Get(q, PSecurity) == "tls" && Get(q, PSni) == sni && Get(q, PFp) == fp && Get(q, PPcs) == pin
      && Get(q, PVcn) == vcn && Get(q, PAlpn) == (if alpn.Some? then Join(alpn.value, ',') else "")
    case WithReality(sni, fp, pbk, sid, spx) =>
      && Get(q, PSecurity) == "reality" && Get(q, PSni) == sni && Get(q, PFp) == fp && Get(q, PPbk) == pbk
      && Get(q, PSid) == sid && Get(q, PSpx) == spx
  }

  ghost predicate Unset(q: Query, ks: set<Param>) {
    forall k :: k in ks ==> Get(q, k) == ""
  }

  ghost predicate SameBut(q: Query, r: Query, ks: set<Param>) {
    forall k :: k !in ks ==> Get(r, k) == Get(q, k)
  }

  function SecurityParams(): set<Param> { {PSecurity, PSni, PFp, PAlpn, PPcs, PVcn, PPbk, PSid, PSpx} }
  function TransportParams(): set<Param> { {PHost, PPath, PMode, PServiceName, PHeaderType} }
  function UnprintedParams(): set<Param> { {PPeer, PPinSha, PEncryption, PFlow} }

  lemma ParamFamilies()
    ensures SecurityParams() !! TransportParams() && SecurityParams() !! UnprintedParams() &&
            TransportParams() !! UnprintedParams()
    ensures PSecurity !in TransportParams() && PType !in SecurityParams() + TransportParams()
  {
  }

  lemma TlsParamsSay(q: Query, sni: string, fp: string, alpn: string, pin: string, vcn: string)
    requires Unset(q, {PSni, PFp, PAlpn, PPcs, PVcn})
    ensures var r := TlsParams(q, sni, fp, alpn, pin, vcn);
            && Get(r, PSni) == sni && Get(r, PFp) == fp && Get(r, PAlpn) == alpn && Get(r, PPcs) == pin &&
                 Get(r, PVcn) == vcn
            && SameBut(q, r, {PSni, PFp, PAlpn, PPcs, PVcn})
  {
    assert PSni in {PSni, PFp, PAlpn, PPcs, PVcn} && PFp in {PSni, PFp, PAlpn, PPcs, PVcn};
  }

  lemma RealityParamsSay(q: Query, sni: string, fp: string, pbk: string, sid: string, spx: string)
    requires Unset(q, {PSni, PFp, PPbk, PSid, PSpx})
    ensures var r := RealityParams(q, sni, fp, pbk, sid, spx);
            && Get(r, PSni) == sni && Get(r, PFp) == fp && Get(r, PPbk) == pbk && Get(r, PSid) == sid &&
                 Get(r, PSpx) == spx
            && SameBut(q, r, {PSni, PFp, PPbk, PSid, PSpx})
  {
  }

  lemma TlsPrinted(q: Query, s: SecFacts)
    requires s.WithTls? && SaneSec(s)
    requires Unset(q, SecurityParams())
    ensures var q' := TlsQuery(q, TlsObject(s));
            SaysSecurity(q', s) && SameBut(q, q', SecurityParams())
  {
    hide TlsObject, TlsParams, Join, StrArr, Str;
    TlsReads(s);
    if s.alpn.Some? { StrArrBack(s.alpn.value); }
    NoListText();
    TlsParamsSay(q[PSecurity := "tls"], s.sni, s.fp, if s.alpn.Some? then Join(s.alpn.value, ',') else "", s.pin,
                 s.vcn);
  }

  lemma NoListText()
    ensures Join(Strs(JNull), ',') == ""
  {
  }

  lemma RealityPrinted(q: Query, s: SecFacts)
    requires s.WithReality?
    requires Unset(q, SecurityParams())
    ensures var q' := RealityQuery(q, RealityObject(s));
            SaysSecurity(q', s) && SameBut(q, q', SecurityParams())
  {
    hide RealityObject, RealityParams, Str;
    RealityReads(s);
    RealityParamsSay(q[PSecurity := "reality"], s.sni, s.fp, s.pbk, s.sid, s.spx);
  }

  lemma SecurityPrinted(q: Query, n: NetFacts, s: SecFacts)
    requires SaneSec(s)
    requires Unset(q, SecurityParams())
    ensures var q' := SecurityQuery(q, StreamObject(n, s));
            SaysSecurity(q', s) && SameBut(q, q', SecurityParams())
  {
    hide StreamObject, TlsObject, RealityObject, TlsQuery, RealityQuery, SaneSec;
    StreamFields(n, s);
    if s.WithTls? { TlsPrinted(q, s); } else if s.WithReality? { RealityPrinted(q, s); }
  }

  function BlockOf(n: NetFacts): Object {
    if TransportBlock(n).Some? then TransportBlock(n).value else map[]
  }

  // A transport's block, printed into a query that says nothing of it yet, is
  // read back as that transport.
  ghost predicate Reread(n: NetFacts, q: Query) {
    var q' := BlockQuery(q, Carrier(n), BlockOf(n));
    NetOf(q') == n && SameBut(q, q', TransportParams())
  }

  ghost predicate Ready(n: NetFacts, q: Query) {
    SaneNet(n) && Get(q, PType) == NetName(Carrier(n)) && Unset(q, TransportParams())
  }

  lemma PlainPrinted(n: NetFacts, q: Query)
    requires Ready(n, q) && (n.OverTcp? || n.OverKcp? || n.OverQuic? || n.OverGrpc?)
    ensures Reread(n, q)
  {
    hide NormNetwork, NetName, HeaderIsHttp;
    NetNameBack(Carrier(n));
    HttpHeaderName();
  }

  lemma TcpHttpPrinted(n: NetFacts, q: Query)
    requires Ready(n, q) && n.OverTcpHttp?
    ensures Reread(n, q)
  {
    hide NormNetwork, NetName, HeaderIsHttp;
    NetNameBack(Carrier(n));
    HttpHeaderName();
    if n.host != "" { StrArrBack([n.host]); }
  }

  lemma UpgradePrinted(n: NetFacts, q: Query)
    requires Ready(n, q) && (n.OverHttpUpgrade? || n.OverXhttp?)
    ensures Reread(n, q)
  {
    hide NormNetwork, NetName;
    NetNameBack(Carrier(n));
  }

  lemma WsPrinted(n: NetFacts, q: Query)
    requires Ready(n, q) && n.OverWs?
    ensures Reread(n, q)
  {
    hide NormNetwork, NetName;
    NetNameBack(Carrier(n));
  }

  lemma HttpPrinted(n: NetFacts, q: Query)
    requires Ready(n, q) && n.OverHttp?
    ensures Reread(n, q)
  {
    hide NormNetwork, NetName;
    NetNameBack(Carrier(n));
    if n.host != "" { StrArrBack([n.host]); }
  }

  lemma BlockPrinted(n: NetFacts, q: Query)
    requires Ready(n, q)
    ensures Reread(n, q)
  {
    hide *;
    match n
    case OverTcpHttp(_) => TcpHttpPrinted(n, q);
    case OverHttpUpgrade(_, _) => UpgradePrinted(n, q);
    case OverXhttp(_, _, _) => UpgradePrinted(n, q);
    case OverWs(_, _) => WsPrinted(n, q);
    case OverHttp(_, _) => HttpPrinted(n, q);
    case _ => PlainPrinted(n, q);
  }

  lemma TransportPrinted(n: NetFacts, s: SecFacts, q: Query)
    requires SaneNet(n) && Get(q, PType) == NetName(Carrier(n))
    requires Unset(q, TransportParams())
    ensures var q' := TransportQuery(q, StreamObject(n, s), Carrier(n));
            NetOf(q') == n && SameBut(q, q', TransportParams())
  {
    assert Ready(n, q);
    assert TransportKey(Carrier(n)).None? ==> BlockQuery(q, Carrier(n), BlockOf(n)) == q;
    hide StreamObject, NormNetwork, NetName, NetOf, SaneNet, TransportBlock, BlockQuery, Carrier, TransportKey,
         SameBut, Unset;
    BlockPrinted(n, q);
    StreamFields(n, s);
  }

  lemma HttpHeaderName()
    ensures HeaderIsHttp("http") && !HeaderIsHttp("")
  {
    LowerWordFixed("http");
  }

  lemma BareQuery(v: string)
    ensures var q: Query := map[PType := v];
            Unset(q, SecurityParams()) && Unset(q, TransportParams()) && Get(q, PType) == v &&
                Unset(q, UnprintedParams())
  {
  }

  // The query printed from a stream object says what the object was built from.
  lemma QuerySays(n: NetFacts, s: SecFacts)
    requires SaneNet(n) && SaneSec(s)
    ensures var q := StreamQuery(StreamObject(n, s));
            && NetOf(q) == n && Get(q, PType) == NetName(Carrier(n))
            && SaysSecurity(q, s) && (Get(q, PSecurity) == "" <==> s.NoSecurity?)
            && Unset(q, UnprintedParams())
  {
    ParamFamilies();
    hide Get, NormNetwork, NetName, StreamObject, SecurityQuery, TransportQuery, NetOf, SaneSec, SaneNet, SaysSecurity,
         SecurityParams, TransportParams, UnprintedParams, Unset;
    var o, c := StreamObject(n, s), Carrier(n);
    StreamFields(n, s);
    NetNameBack(c);
    BareQuery(NetName(c));
    var q0: Query := map[PType := NetName(c)];
    var q := SecurityQuery(q0, o);
    SecurityPrinted(q0, n, s);
    UnsetKept(q0, q, SecurityParams(), TransportParams());
    UnsetKept(q0, q, SecurityParams(), UnprintedParams());
    TransportPrinted(n, s, q);
    var q' := TransportQuery(q, o, c);
    UnsetKept(q, q', TransportParams(), UnprintedParams());
    SaysKept(q, q', s);
  }

  // What printing the options of a query and reading them again gives.
  lemma PrintedOptions(n: NetFacts, s: SecFacts)
    requires SaneNet(n) && SaneSec(s)
    ensures NetOf(StreamQuery(StreamObject(n, s))) == n
    ensures SecOf(StreamQuery(StreamObject(n, s))) == s <==> Carried(s)
  {
    hide Get, StreamObject, StreamQuery, NetOf, SecOf, SaneSec, SaneNet, SaysSecurity, Carried;
    QuerySays(n, s);
    SecurityReread(s, StreamQuery(StreamObject(n, s)));
  }

  lemma UnsetKept(q: Query, r: Query, changed: set<Param>, ks: set<Param>)
    requires Unset(q, ks) && SameBut(q, r, changed) && changed !! ks
    ensures Unset(r, ks)
  {
  }

  lemma SaysKept(q: Query, r: Query, s: SecFacts)
    requires SaysSecurity(q, s) && SameBut(q, r, TransportParams())
    ensures SaysSecurity(r, s) && (Get(r, PSecurity) == "" <==> s.NoSecurity?)
  {
    hide Get, Join;
    assert |"tls"| == 3 && |"reality"| == 7;
  }

  lemma SecurityReread(s: SecFacts, q: Query)
    requires SaneSec(s) && SaysSecurity(q, s) && Unset(q, UnprintedParams())
    ensures SecOf(q) == s <==> Carried(s)
  {
    hide SecurityOf, SplitComma, NormalPin;
    SecurityNames();
    if s.WithTls? {
      if s.alpn.Some? && s.alpn.value != [] { SplitCommaJoin(s.alpn.value); }
      EmptyPin();
    }
  }

  lemma EmptyPin()
    ensures NormalPin("") == ""
  {
    SqueezeFixed("");
    assert Split("", ',') == [""] && PinParts([""]) == [];
  }

  // Options and streamSettings determine each other.
  lemma StreamInjective(n: NetFacts, s: SecFacts, n': NetFacts, s': SecFacts)
    requires SaneNet(n) && SaneSec(s) && SaneNet(n') && SaneSec(s')
    requires StreamObject(n, s) == StreamObject(n', s')
    ensures n == n' && s == s'
  {
    hide SaneNet, SaneSec, NormNetwork, NetName, NetOf;
    PrintedOptions(n, s);
    PrintedOptions(n', s');
    SecurityInjective(n, s, n', s');
  }

  lemma SecurityInjective(n: NetFacts, s: SecFacts, n': NetFacts, s': SecFacts)
    requires StreamObject(n, s) == StreamObject(n', s')
    ensures s == s'
  {
    hide StreamObject, TlsObject, RealityObject;
    StreamFields(n, s);
    StreamFields(n', s');
    assert |"tls"| != |"reality"|;
    if s.WithTls? {
      TlsReads(s);
      TlsReads(s');
      if s.alpn.Some? { StrArrInjective(s.alpn.value, s'.alpn.value); }
    } else if s.WithReality? {
      RealityReads(s);
      RealityReads(s');
    }
  }

  lemma TlsFieldsRead(sni: string, fp: string, alpn: Option<seq<string>>, pin: string, vcn: string)
    ensures var t := TlsFields(sni, fp, alpn, pin, vcn);
            && sni == Str(Field(t, ServerName)) && fp == Str(Field(t, Fingerprint))
            && pin == Str(Field(t, PinnedCert)) && vcn == Str(Field(t, VerifyName))
            && Field(t, Alpn) == (if alpn.None? then JNull else StrArr(alpn.value))
  {
    hide StrArr;
  }

  lemma TlsReads(s: SecFacts)
    requires s.WithTls?
    ensures var t := TlsObject(s);
            && s.sni == Str(Field(t, ServerName)) && s.fp == Str(Field(t, Fingerprint))
            && s.pin == Str(Field(t, PinnedCert)) && s.vcn == Str(Field(t, VerifyName))
            && Field(t, Alpn) == (if s.alpn.None? then JNull else StrArr(s.alpn.value))
  {
    hide TlsFields, StrArr;
    TlsFieldsRead(s.sni, s.fp, s.alpn, s.pin, s.vcn);
  }

  lemma StrArrInjective(a: seq<string>, b: seq<string>)
    requires StrArr(a) == StrArr(b)
    ensures a == b
  {
    assert |StrArr(a).items| == |a| && |StrArr(b).items| == |b|;
    forall i | 0 <= i < |a|
      ensures a[i] == b[i]
    {
      assert StrArr(a).items[i] == JStr(a[i]) && StrArr(b).items[i] == JStr(b[i]);
    }
  }

  lemma RealityReads(s: SecFacts)
    requires s.WithReality?
    ensures var r := RealityObject(s);
            && s.sni == Str(Field(r, ServerName)) && s.fp == Str(Field(r, Fingerprint)) &&
                 s.pbk == Str(Field(r, PublicKey))
            && s.sid == Str(Field(r, ShortId)) && s.spx == Str(Field(r, SpiderX))
  {
  }

  // A query's stream settings, printed and read again, are the same exactly
  // when the options are ones the parameters can carry.
  lemma StreamRoundTrip(q: Query)
    ensures var s := StreamObject(NetOf(q), SecOf(q));
            StreamObject(NetOf(StreamQuery(s)), SecOf(StreamQuery(s))) == s <==> Carried(SecOf(q))
  {
    hide SaneNet, SaneSec, NetOf, SecOf, StreamQuery, StreamObject, Carried;
    var s := StreamObject(NetOf(q), SecOf(q));
    NetOfSane(q);
    SecOfSane(q, "");
    PrintedOptions(NetOf(q), SecOf(q));
    var q' := StreamQuery(s);
    NetOfSane(q');
    SecOfSane(q', "");
    if StreamObject(NetOf(q'), SecOf(q')) == s { StreamInjective(NetOf(q'), SecOf(q'), NetOf(q), SecOf(q)); }
  }
}
