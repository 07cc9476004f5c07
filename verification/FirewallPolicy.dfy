/**
 The guest firewall (network_control_policy.go, network_internet_policy.go, network_xml.go): rules as data
 and what every packet may do under them.

 Rules on frames are decided before rules on IP packets; in each group the matching rule of lowest
 priority decides. A stateful accepting rule admits what it matches and the replies to that.
 */
module FirewallPolicy {
  import opened GuestEgress
  import opened Ipv4
  import opened NetworkIdentity
  import opened Wrappers

  /* ---------- packets ---------- */

  /** `Out` leaves the guest. */
  datatype Direction = Out | In

  datatype ArpOp = Request | Reply

  datatype Transport = Tcp(source: nat, target: nat) | Udp(source: nat, target: nat) | Icmp | Unsupported

  datatype Payload =
    | Arp(op: ArpOp, senderMac: Mac, senderIp: nat, targetMac: Mac, targetIp: nat)
    | Ip(src: nat, dst: nat, transport: Transport)
    | Foreign

  datatype Frame = Frame(direction: Direction, srcMac: Mac, dstMac: Mac, payload: Payload)

  /* ---------- rules ---------- */

  datatype Protocol = TcpOnly | UdpOnly | IcmpOnly

  predicate Speaks(protocol: Protocol, transport: Transport) {
    match protocol
    case TcpOnly => transport.Tcp?
    case UdpOnly => transport.Udp?
    case IcmpOnly => transport.Icmp?
  }

  /** The first four look at frames, the last two at IP packets. */
  datatype Match =
    | AnyFrame
    | OtherSource(mac: Mac)
    | ArpFrom(op: ArpOp, senderMac: Mac, senderIp: nat, targetMac: Option<Mac>, targetIp: nat)
    | IpFrame(src: Option<Prefix>, dst: Option<Prefix>, dstMac: Option<Mac>, protocol: Option<Protocol>,
              sourcePort: Option<nat>, targetPort: Option<nat>)
    | Stateful(protocol3: Protocol, guest: nat, remote: Option<nat>, port: Option<nat>)
    | AnyPacket

  datatype Action = Accept | Drop

  /** `direction` is absent for rules of both directions. */
  datatype Rule = Rule(action: Action, direction: Option<Direction>, priority: int, what: Match)

  predicate Fits<T(==)>(wanted: Option<T>, actual: T) {
    wanted.None? || wanted.value == actual
  }

  predicate Lies(prefix: Option<Prefix>, a: nat) {
    prefix.None? || Contains(prefix.value, a)
  }

  predicate PortFits(wanted: Option<nat>, transport: Transport, source: bool) {
    wanted.None? || ((transport.Tcp? || transport.Udp?) && wanted.value == if source then transport.source else transport.target)
  }

  predicate MatchesFrame(what: Match, frame: Frame) {
    match what
    case AnyFrame => true
    case OtherSource(mac) => frame.srcMac != mac
    case ArpFrom(op, senderMac, senderIp, targetMac, targetIp) =>
      frame.payload.Arp? && frame.payload.op == op && frame.payload.senderMac == senderMac && frame.payload.senderIp == senderIp
      && Fits(targetMac, frame.payload.targetMac) && frame.payload.targetIp == targetIp
    case IpFrame(src, dst, dstMac, protocol, sourcePort, targetPort) =>
      frame.payload.Ip? && Lies(src, frame.payload.src) && Lies(dst, frame.payload.dst) && Fits(dstMac, frame.dstMac)
      && (protocol.Some? ==> Speaks(protocol.value, frame.payload.transport))
      && PortFits(sourcePort, frame.payload.transport, true) && PortFits(targetPort, frame.payload.transport, false)
    case Stateful(_, _, _, _) => false
    case AnyPacket => false
  }

  /** One direction of a conversation. */
  datatype Flow = Flow(src: nat, dst: nat, transport: Transport)

  function Reversed(transport: Transport): Transport {
    match transport
    case Tcp(source, target) => Tcp(target, source)
    case Udp(source, target) => Udp(target, source)
    case Icmp => Icmp
    case Unsupported => Unsupported
  }

  function FlowOf(frame: Frame): Flow
    requires frame.payload.Ip?
  {
    Flow(frame.payload.src, frame.payload.dst, frame.payload.transport)
  }

  /** The flow that the frame would be a reply to. */
  function RepliedTo(frame: Frame): Flow
    requires frame.payload.Ip?
  {
    Flow(frame.payload.dst, frame.payload.src, Reversed(frame.payload.transport))
  }

  /** The flow is one that the stateful rule lets the guest open. */
  predicate Opens(what: Match, flow: Flow)
    requires what.Stateful?
  {
    && Speaks(what.protocol3, flow.transport) && flow.src == what.guest && Fits(what.remote, flow.dst)
    && PortFits(what.port, flow.transport, false)
  }

  /** Packets of an opened flow go out; replies to a tracked one come in. */
  predicate MatchesPacket(what: Match, frame: Frame, tracked: set<Flow>)
    requires frame.payload.Ip?
  {
    match what
    case Stateful(_, _, _, _) =>
      if frame.direction == Out then Opens(what, FlowOf(frame)) else Opens(what, RepliedTo(frame)) && RepliedTo(frame) in tracked
    case AnyPacket => true
    case _ => false
  }

  /** A stateful rule is written for the direction that opens the flow, and covers the replies. */
  predicate Applies(rule: Rule, frame: Frame) {
    rule.direction.None? || rule.direction.value == frame.direction || rule.what.Stateful?
  }

  predicate HitsFrame(rule: Rule, frame: Frame) {
    Applies(rule, frame) && MatchesFrame(rule.what, frame)
  }

  predicate HitsPacket(rule: Rule, frame: Frame, tracked: set<Flow>) {
    frame.payload.Ip? && Applies(rule, frame) && MatchesPacket(rule.what, frame, tracked)
  }

  /* ---------- evaluation ---------- */

  /** The question put to the rules: one of frames, or one of IP packets with what is tracked. */
  datatype Query = OnFrame(frame: Frame) | OnPacket(frame: Frame, tracked: set<Flow>)

  predicate Hits(rule: Rule, query: Query) {
    match query
    case OnFrame(frame) => HitsFrame(rule, frame)
    case OnPacket(frame, tracked) => HitsPacket(rule, frame, tracked)
  }

  /** The matching rule of lowest priority; of several, the earliest. */
  function Best(rules: seq<Rule>, query: Query): (r: Option<Rule>)
    ensures r.Some? ==> r.value in rules && Hits(r.value, query)
    ensures r.Some? ==> forall x :: x in rules && Hits(x, query) ==> r.value.priority <= x.priority
    ensures r.None? ==> forall x :: x in rules ==> !Hits(x, query)
  {
    if rules == [] then None
    else
      var before, last := Best(rules[..|rules| - 1], query), rules[|rules| - 1];
      assert rules == rules[..|rules| - 1] + [last];
      if Hits(last, query) && (before.None? || last.priority < before.value.priority) then Some(last) else before
  }

  predicate Allows(rules: seq<Rule>, query: Query) {
    var best := Best(rules, query);
    best.None? || best.value.action == Accept
  }

  /** Nothing matches, or accepting frames goes on to the rules on packets. */
  predicate Accepts(rules: seq<Rule>, frame: Frame, tracked: set<Flow>) {
    Allows(rules, OnFrame(frame)) && (frame.payload.Ip? ==> Allows(rules, OnPacket(frame, tracked)))
  }

  /** Rules of one priority do the same, so that the order in which they were written does not matter. */
  ghost predicate TieFree(rules: seq<Rule>) {
    forall x, y :: x in rules && y in rules && x.priority == y.priority ==> x.action == y.action
  }

  /** The action of a layer of rules: they all do the same. */
  ghost predicate Uniform(rules: seq<Rule>, action: Action) {
    forall x :: x in rules ==> x.action == action
  }

  ghost predicate Precedes(xs: seq<Rule>, ys: seq<Rule>) {
    forall x, y :: x in xs && y in ys ==> x.priority < y.priority
  }

  ghost predicate Hit(rules: seq<Rule>, query: Query) {
    exists x :: x in rules && Hits(x, query)
  }

  /** A layer that matches decides with its one action; otherwise the layers after it decide. */
  lemma LayerDecides(layer: seq<Rule>, rest: seq<Rule>, action: Action, query: Query)
    requires Uniform(layer, action) && Precedes(layer, rest)
    ensures Allows(layer + rest, query) <==> if Hit(layer, query) then action == Accept else Allows(rest, query)
  {
    var best := Best(layer + rest, query);
    assert forall x :: x in layer + rest <==> x in layer || x in rest;
    if Hit(layer, query) {
      var x :| x in layer && Hits(x, query);
      assert best.Some? && best.value in layer;
    } else {
      SameBest(layer, rest, query);
    }
  }

  /** Rules that do not match make no difference. */
  lemma {:induction false} SameBest(layer: seq<Rule>, rest: seq<Rule>, query: Query)
    requires !Hit(layer, query)
    ensures Best(layer + rest, query) == Best(rest, query)
  {
    if rest == [] {
      assert layer + rest == layer;
    } else {
      assert (layer + rest)[..|layer + rest| - 1] == layer + rest[..|rest| - 1];
      SameBest(layer, rest[..|rest| - 1], query);
    }
  }

  /* ---------- the generated policies ---------- */

  function SourceGuard(n: Network): seq<Rule> {
    [Rule(Drop, Some(Out), -1000, OtherSource(n.guestMac)), Rule(Drop, Some(In), -1000, OtherSource(n.gatewayMac))]
  }

  /** Address resolution between the guest and its gateway, and nobody else. */
  function Resolution(n: Network): seq<Rule> {
    [Rule(Accept, Some(Out), -900, ArpFrom(Request, n.guestMac, n.guest, None, n.gateway)),
     Rule(Accept, Some(Out), -890, ArpFrom(Reply, n.guestMac, n.guest, Some(n.gatewayMac), n.gateway)),
     Rule(Accept, Some(In), -900, ArpFrom(Request, n.gatewayMac, n.gateway, None, n.guest)),
     Rule(Accept, Some(In), -890, ArpFrom(Reply, n.gatewayMac, n.gateway, Some(n.guestMac), n.guest))]
  }

  /** Frames between the guest and the control endpoint. */
  function ControlFrames(n: Network, control: Control, priority: int): seq<Rule> {
    [Rule(Accept, Some(Out), priority,
          IpFrame(Some(Single(n.guest)), Some(Single(control.ip)), Some(n.gatewayMac), Some(TcpOnly), None, Some(control.origin.port))),
     Rule(Accept, Some(In), priority,
          IpFrame(Some(Single(control.ip)), Some(Single(n.guest)), Some(n.guestMac), Some(TcpOnly), Some(control.origin.port), None))]
  }

  const OTHER_FRAMES := Rule(Drop, None, -700, AnyFrame)
  const OTHER_PACKETS := Rule(Drop, None, 1000, AnyPacket)

  function Quarantine(): seq<Rule> {
    [Rule(Drop, None, -1000, AnyFrame)]
  }

  /** Version 2: the control endpoint and nothing else. */
  function ControlPolicy(n: Network, control: Control): seq<Rule> {
    SourceGuard(n) + Resolution(n) + ControlFrames(n, control, -800) + [OTHER_FRAMES]
    + [Rule(Accept, Some(Out), 0, Stateful(TcpOnly, n.guest, Some(control.ip), Some(control.origin.port)))] + [OTHER_PACKETS]
  }

  function DenyPair(p: Prefix): seq<Rule> {
    [Rule(Drop, Some(Out), -840, IpFrame(None, Some(p), None, None, None, None)),
     Rule(Drop, Some(In), -840, IpFrame(Some(p), None, None, None, None, None))]
  }

  function Denials(prefixes: seq<Prefix>): seq<Rule> {
    if prefixes == [] then [] else Denials(prefixes[..|prefixes| - 1]) + DenyPair(prefixes[|prefixes| - 1])
  }

  function OpenPair(n: Network, protocol: Protocol): seq<Rule> {
    [Rule(Accept, Some(Out), -800, IpFrame(Some(Single(n.guest)), None, Some(n.gatewayMac), Some(protocol), None, None)),
     Rule(Accept, Some(In), -800, IpFrame(None, Some(Single(n.guest)), Some(n.guestMac), Some(protocol), None, None))]
  }

  const PROTOCOLS := [TcpOnly, UdpOnly, IcmpOnly]

  function Openings(n: Network, protocols: seq<Protocol>): seq<Rule> {
    if protocols == [] then [] else Openings(n, protocols[..|protocols| - 1]) + OpenPair(n, protocols[|protocols| - 1])
  }

  function Conversations(n: Network, protocols: seq<Protocol>): seq<Rule> {
    if protocols == [] then []
    else Conversations(n, protocols[..|protocols| - 1])
         + [Rule(Accept, Some(Out), 0, Stateful(protocols[|protocols| - 1], n.guest, None, None))]
  }

  /** Version 3: the control endpoint, and everything public that is not denied. */
  function InternetPolicy(n: Network, control: Control, prefixes: seq<Prefix>): seq<Rule> {
    SourceGuard(n) + Resolution(n) + ControlFrames(n, control, -850) + Denials(prefixes) + Openings(n, PROTOCOLS) + [OTHER_FRAMES]
    + Conversations(n, PROTOCOLS) + [OTHER_PACKETS]
  }

  /** Where the first rule accepting outgoing frames at -800 stands: version 3 keeps what comes before it. */
  method Boundary(rules: seq<Rule>) returns (at: Option<nat>)
    ensures at.Some? ==> at.value < |rules| && IsBoundary(rules[at.value]) && forall i :: 0 <= i < at.value ==> !IsBoundary(rules[i])
    ensures at.None? ==> forall i :: 0 <= i < |rules| ==> !IsBoundary(rules[i])
  {
    for i := 0 to |rules|
      invariant forall j :: 0 <= j < i ==> !IsBoundary(rules[j])
    {
      if IsBoundary(rules[i]) {
        return Some(i);
      }
    }
    return None;
  }

  predicate IsBoundary(rule: Rule) {
    rule.action == Accept && rule.direction == Some(Out) && rule.priority == -800
  }

  /** The policy of a valid network. */
  function RulesOf(n: Network, denied: seq<Prefix>): seq<Rule>
    requires n.version == 2 || n.version == 3 ==> n.control.Some?
  {
    if n.version == 2 then ControlPolicy(n, n.control.value)
    else if n.version == 3 then InternetPolicy(n, n.control.value, RESERVED + denied)
    else Quarantine()
  }

  /** Generates the policy of a recorded network; `denied` lists its denied prefixes. */
  method Policy(host: Host, n: Network, denied: seq<Prefix>) returns (rules: Option<seq<Rule>>)
    requires n.internet.Some? ==> (set p | p in denied) == n.internet.value.denied
    ensures rules.Some? <==> NetworkValid(host, n, n.uuid)
    ensures rules.Some? ==> rules.value == RulesOf(n, denied)
  {
    if !NetworkValid(host, n, n.uuid) {
      return None;
    }
    if n.version == 1 {
      return Some(Quarantine());
    }
    var control := n.control.value;
    if n.version == 2 {
      return Some(ControlPolicy(n, control));
    }
    var base := ControlPolicy(n, control);
    var at := Boundary(base);
    assert IsBoundary(base[6]);
    var result := base[..at.value];
    assert result == SourceGuard(n) + Resolution(n);
    result := result + ControlFrames(n, control, -850);
    result := Append(result, RESERVED + denied, n);
    result := result + [OTHER_FRAMES];
    result := AppendConversations(result, n);
    result := result + [OTHER_PACKETS];
    return Some(result);
  }

  /** The denials of all prefixes, then the openings of all protocols. */
  method Append(start: seq<Rule>, prefixes: seq<Prefix>, n: Network) returns (result: seq<Rule>)
    ensures result == start + Denials(prefixes) + Openings(n, PROTOCOLS)
  {
    result := start;
    for i := 0 to |prefixes|
      invariant result == start + Denials(prefixes[..i])
    {
      assert prefixes[..i + 1][..i] == prefixes[..i];
      result := result + DenyPair(prefixes[i]);
    }
    assert prefixes[..|prefixes|] == prefixes;
    for i := 0 to |PROTOCOLS|
      invariant result == start + Denials(prefixes) + Openings(n, PROTOCOLS[..i])
    {
      assert PROTOCOLS[..i + 1][..i] == PROTOCOLS[..i];
      result := result + OpenPair(n, PROTOCOLS[i]);
    }
    assert PROTOCOLS[..|PROTOCOLS|] == PROTOCOLS;
  }

  method AppendConversations(start: seq<Rule>, n: Network) returns (result: seq<Rule>)
    ensures result == start + Conversations(n, PROTOCOLS)
  {
    result := start;
    for i := 0 to |PROTOCOLS|
      invariant result == start + Conversations(n, PROTOCOLS[..i])
    {
      assert PROTOCOLS[..i + 1][..i] == PROTOCOLS[..i];
      result := result + [Rule(Accept, Some(Out), 0, Stateful(PROTOCOLS[i], n.guest, None, None))];
    }
    assert PROTOCOLS[..|PROTOCOLS|] == PROTOCOLS;
  }
}
