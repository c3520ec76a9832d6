// How xray reads a routing section, and where a connection ends up.
module RoutingTable {
  import opened Wrappers
  import opened Text
  import opened Tags
  import opened XrayConfig

  predicate Matches(r: Rule, inTag: string, user: string) {
    r.inTag == inTag && (r.ToBalancer? ==> r.user == user)
  }

  // The rule in force for a connection: the first that matches.
  function RuleFor(rules: seq<Rule>, inTag: string, user: string): (r: Option<Rule>)
    ensures r.Some? ==> r.value in rules && Matches(r.value, inTag, user)
    ensures r.None? ==> forall x :: x in rules ==> !Matches(x, inTag, user)
  {
    if rules == [] then None
    else if Matches(rules[0], inTag, user) then Some(rules[0])
    else RuleFor(rules[1..], inTag, user)
  }

  function BalancerFor(bals: seq<Balancer>, tag: string): (b: Option<Balancer>)
    ensures b.Some? ==> b.value in bals && b.value.tag == tag
    ensures b.None? ==> forall x :: x in bals ==> x.tag != tag
  {
    if bals == [] then None
    else if bals[0].tag == tag then Some(bals[0])
    else BalancerFor(bals[1..], tag)
  }

  // A selector catches every outbound whose tag it starts.
  predicate Caught(b: Balancer, tag: string) {
    exists s :: s in b.selectors && s <= tag
  }

  // The running process: the sections it was started with, which no api call
  // changes, what the calls do change, and its default outbound.
  datatype Process = Process(
    fixed: Fixed, outbounds: map<string, Outbound>, inbounds: map<string, Inbound>, routing: Routing, default: string)

  // A balancer's choice among the outbounds its selectors catch: whatever the
  // observatory makes of their health. None: nothing qualifies.
  type Health = (string, set<string>) -> Option<string>

  function Candidates(p: Process, b: Balancer): set<string> {
    set t | t in p.outbounds && Caught(b, t)
  }

  function Choice(p: Process, b: Balancer, h: Health): string {
    var c := h(b.tag, Candidates(p, b));
    if c.Some? && c.value in Candidates(p, b) then c.value else b.fallback
  }

  // The outbound a routed connection is handed to; a tag that names nothing
  // falls to the default outbound.
  function Handler(p: Process, inTag: string, user: string, h: Health): string {
    var tag :=
      match RuleFor(p.routing.rules, inTag, user)
      case None => p.default
      case Some(ToOutbound(_, outTag)) => outTag
      case Some(ToBalancer(_, _, balTag)) =>
        match BalancerFor(p.routing.balancers, balTag)
        case None => p.default
        case Some(b) => Choice(p, b, h);
    if tag in p.outbounds then tag else p.default
  }

  datatype Fate = Nowhere | Blackholed | LeavesBy(tag: string)

  // What the model leaves open: how healthy the balancers find their members,
  // and which protocols reach their server without the dialer they are given.
  datatype Behaviour = Behaviour(health: Health, ignores: string -> bool)

  // A protocol that reaches its server through its dialer, or reaches none. A
  // loopback sends its connections back through the routing table instead.
  predicate Obeys(x: Behaviour, protocol: string) {
    var p := ToLower(protocol);
    p == "blackhole" || (p != "loopback" && !x.ignores(p))
  }

  // The inbound listening on a loopback port and the user an id logs in as there.
  ghost predicate Listens(p: Process, inTag: string, port: nat) {
    inTag in p.inbounds && p.inbounds[inTag].port == port
  }

  // The user an id logs in as: the first client that carries it.
  function UserOf(clients: seq<Client>, id: UserId): Option<string> {
    if clients == [] then None
    else if clients[0].id == id then Some(clients[0].email)
    else UserOf(clients[1..], id)
  }

  // Where a user's connection handed to an outbound ends, within `steps` hops. A
  // dial through a missing outbound, a login nobody knows and an endless chain go
  // nowhere. The text of a loopback is the inbound tag it sends connections back to.
  ghost function Fates(p: Process, tag: string, user: string, x: Behaviour, steps: nat): Fate
    decreases steps
  {
    if steps == 0 || tag !in p.outbounds then Nowhere
    else
      var o := p.outbounds[tag];
      var protocol := ToLower(o.protocol);
      if protocol == "blackhole" then Blackholed
      else if protocol == "loopback" && o.body.Settings? then
        Fates(p, Handler(p, o.body.text, user, x.health), user, x, steps - 1)
      else if o.dialer != "" && !x.ignores(protocol) then Fates(p, o.dialer, user, x, steps - 1)
      else match o.body
        case Settings(_, _) => LeavesBy(tag)
        case Hop(port, id, _) =>
          if inTag :| Listens(p, inTag, port) then
            match UserOf(p.inbounds[inTag].clients, id)
            case None => Nowhere
            case Some(login) => Fates(p, Handler(p, inTag, login, x.health), login, x, steps - 1)
          else Nowhere
  }
}
