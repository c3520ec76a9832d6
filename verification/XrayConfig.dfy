// The objects of a generated xray config, and the inputs it is generated from.
// Text the model never looks into (settings, stream options) is carried as is.
module XrayConfig {
  import opened Wrappers
  import opened Text
  import opened Tags

  const SLOT_COUNT := 32
  const SLOT_PORT_START := 11900
  const API_PORT := 11932
  const API_TAG := "api"

  // How many of a slot's best-ranked members its balancer uses by default.
  const BALANCER_EXPECTED := 2

  function SlotPort(idx: nat): nat { SLOT_PORT_START + idx }

  // A client's id: the one derived from a master's name, or any other.
  datatype UserId = DialerId(master: string) | OtherId(text: string)

  datatype Client = Client(id: UserId, password: string, auth: string, email: string)
  datatype Account = Account(user: string, pass: string)

  // What an outbound does beyond its dialer: a loopback hop into a slot as one
  // of its users, or settings carried as text.
  datatype Body = Hop(port: nat, user: UserId, source: string) | Settings(text: string, mux: bool)

  datatype Outbound = Outbound(tag: string, protocol: string, dialer: string, body: Body)

  // port 0: a Unix socket.
  datatype Inbound = Inbound(
    tag: string, protocol: string, port: nat, clients: seq<Client>, accounts: seq<Account>, text: string)

  datatype Rule =
    | ToOutbound(inTag: string, outTag: string)
    | ToBalancer(inTag: string, user: string, balTag: string)

  datatype Balancer = Balancer(tag: string, selectors: seq<string>, leastLoad: bool, fallback: string)

  datatype Routing = Routing(rules: seq<Rule>, balancers: seq<Balancer>)

  // Every section the api cannot change.
  datatype Fixed = Fixed(accessLog: string, errorLog: string, logLevel: string, probeInterval: string, probeUrl: string)

  datatype Config = Config(fixed: Fixed, inbounds: seq<Inbound>, outbounds: seq<Outbound>, routing: Routing)

  // ---- inputs ---------------------------------------------------------------

  // A stored outbound: text that does not parse, or an object with its protocol,
  // its own dialerProxy if any, and whether it takes a mux block.
  datatype Stored = BadJson | Stored(protocol: string, dialerProxy: string, text: string, muxable: bool)

  datatype Entry = Entry(name: string, outbound: Stored, enabled: bool, dialer: string, mux: bool)

  // A listener. A socks one has at most one login, and none when its user is
  // blank; the clients are the other protocols'.
  datatype UserInbound = UserInbound(
    name: string, protocol: string, port: nat, unix: bool, enabled: bool, target: string,
    clients: seq<Client>, socksUser: string, password: string, streamOk: bool, text: string)

  datatype Member = Member(key: string, outbound: Stored)

  datatype MasterPick = MasterPick(picked: seq<string>, active: nat)

  datatype Slot = Slot(
    master: string, aliases: seq<string>, index: nat, members: seq<Member>,
    pool: MasterPick, masterPicks: map<string, MasterPick>)

  function SlotMasters(s: Slot): seq<string> { [s.master] + s.aliases }

  function PickOf(s: Slot, master: string): MasterPick {
    if master in s.masterPicks then s.masterPicks[master] else s.pool
  }

  // How many of the picked members are active: 0 stands for the default.
  function ActiveCount(active: nat, picked: seq<string>): nat {
    Min(if active == 0 then BALANCER_EXPECTED else active, |picked|)
  }

  predicate IsMaster(e: Entry) { !Blank(e.dialer) }

  predicate MasterAllowed(o: Stored) {
    o.Stored? && ToLower(o.protocol) != "hysteria"
  }

  predicate TunnelProtocol(p: string) {
    p in {"vless", "vmess", "trojan", "shadowsocks", "socks", "http", "hysteria", "wireguard"}
  }

  predicate MemberAllowed(o: Stored) {
    o.Stored? && TunnelProtocol(ToLower(o.protocol))
  }

  const BLOCK := Outbound("block", "blackhole", "", Settings("", false))
  const DIRECT := Outbound("direct", "freedom", "", Settings("", false))

  function OutTags(obs: seq<Outbound>): set<string> {
    set o | o in obs :: o.tag
  }

  // ---- inbound targets ----------------------------------------------------------

  datatype Target = ToDirect | ToXray(name: string) | ToMaster(name: string) | ToIface(name: string)

  predicate IfaceName(s: string) {
    1 <= |s| <= 15 && forall c :: c in s ==> TagChar(c) || c == '.' || c == ':' || c == '@'
  }

  function ParseTarget(t: string): Result<Target, string> {
    var s := TrimSpace(t);
    if s == "" || s == "direct" then Ok(ToDirect)
    else match Cut(s, ':')
      case None => Err("bad target")
      case Some((kind, name)) =>
        if name == "" then Err("bad target")
        else if kind == "master" then Ok(ToMaster(name))
        else if kind == "xray" then Ok(ToXray(name))
        else if kind == "iface" then (if IfaceName(name) then Ok(ToIface(name)) else Err("bad interface name"))
        else Err("unknown target kind")
  }

  function OutboundTagFor(t: Target): string {
    match t
    case ToDirect => "direct"
    case ToXray(name) => EntryTag(name)
    case ToMaster(name) => EntryTag(name)
    case ToIface(name) => IfaceTag(name)
  }
}
