/**
 What every packet may do under the generated guest firewalls.
 */
module PacketPolicy {
  import opened FirewallPolicy
  import opened GuestEgress
  import opened Ipv4
  import opened NetworkIdentity
  import opened Wrappers

  /* ---------- the layers of a policy ---------- */

  lemma {:induction false} DenialsAre(prefixes: seq<Prefix>, rule: Rule)
    ensures rule in Denials(prefixes) <==> exists p :: p in prefixes && rule in DenyPair(p)
  {
    if prefixes != [] {
      var n := |prefixes| - 1;
      DenialsAre(prefixes[..n], rule);
      assert prefixes == prefixes[..n] + [prefixes[n]];
    }
  }

  lemma {:induction false} OpeningsAre(n: Network, protocols: seq<Protocol>, rule: Rule)
    ensures rule in Openings(n, protocols) <==> exists p :: p in protocols && rule in OpenPair(n, p)
  {
    if protocols != [] {
      var k := |protocols| - 1;
      OpeningsAre(n, protocols[..k], rule);
      assert protocols == protocols[..k] + [protocols[k]];
    }
  }

  lemma {:induction false} ConversationsAre(n: Network, protocols: seq<Protocol>, rule: Rule)
    ensures rule in Conversations(n, protocols) <==>
            exists p :: p in protocols && rule == Rule(Accept, Some(Out), 0, Stateful(p, n.guest, None, None))
  {
    if protocols != [] {
      var k := |protocols| - 1;
      ConversationsAre(n, protocols[..k], rule);
      assert protocols == protocols[..k] + [protocols[k]];
    }
  }

  lemma DenialsLayer(prefixes: seq<Prefix>)
    ensures Uniform(Denials(prefixes), Drop) && forall x :: x in Denials(prefixes) ==> x.priority == -840
  {
    forall x | x in Denials(prefixes)
      ensures x.action == Drop && x.priority == -840
    {
      DenialsAre(prefixes, x);
    }
  }

  lemma OpeningsLayer(n: Network)
    ensures Uniform(Openings(n, PROTOCOLS), Accept) && forall x :: x in Openings(n, PROTOCOLS) ==> x.priority == -800
  {
    forall x | x in Openings(n, PROTOCOLS)
      ensures x.action == Accept && x.priority == -800
    {
      OpeningsAre(n, PROTOCOLS, x);
    }
  }

  lemma ConversationsLayer(n: Network)
    ensures Uniform(Conversations(n, PROTOCOLS), Accept)
    ensures forall x :: x in Conversations(n, PROTOCOLS) ==> x.priority == 0 && x.what.Stateful?
  {
    forall x | x in Conversations(n, PROTOCOLS)
      ensures x.action == Accept && x.priority == 0 && x.what.Stateful?
    {
      ConversationsAre(n, PROTOCOLS, x);
    }
  }

  /** All priorities of the rules lie in a range. */
  ghost predicate Ranked(rules: seq<Rule>, from: int, to: int) {
    forall x :: x in rules ==> from <= x.priority <= to
  }

  lemma RankedTogether(xs: seq<Rule>, ys: seq<Rule>, from: int, to: int)
    requires Ranked(xs, from, to) && Ranked(ys, from, to)
    ensures Ranked(xs + ys, from, to)
  {
  }

  /** Two accepting layers and the rest, in that order. */
  lemma AcceptingLayers(b: seq<Rule>, c: seq<Rule>, rest: seq<Rule>, limit: int, query: Query)
    requires Uniform(b, Accept) && Uniform(c, Accept)
    requires Ranked(b, -900, -890) && Ranked(c, limit, limit) && -890 < limit < 1000 && Ranked(rest, limit + 1, 1000)
    ensures Allows(b + (c + rest), query) <==> Hit(b, query) || Hit(c, query) || Allows(rest, query)
    ensures Ranked(b + (c + rest), -900, 1000)
  {
    RankedTogether(c, rest, limit, 1000);
    RankedTogether(b, c + rest, -900, 1000);
    LayerDecides(c, rest, Accept, query);
    LayerDecides(b, c + rest, Accept, query);
  }

  /** A dropping layer before them. */
  lemma GuardedLayers(a: seq<Rule>, b: seq<Rule>, c: seq<Rule>, rest: seq<Rule>, limit: int, query: Query)
    requires Uniform(a, Drop) && Uniform(b, Accept) && Uniform(c, Accept)
    requires Ranked(a, -1000, -1000) && Ranked(b, -900, -890) && Ranked(c, limit, limit) && -890 < limit < 1000 && Ranked(rest, limit + 1, 1000)
    ensures Allows(a + b + c + rest, query) <==> !Hit(a, query) && (Hit(b, query) || Hit(c, query) || Allows(rest, query))
  {
    AcceptingLayers(b, c, rest, limit, query);
    LayerDecides(a, b + (c + rest), Drop, query);
    assert a + b + c + rest == a + (b + (c + rest));
  }

  /** A layer of conversations between the two rules that drop everything else. */
  lemma ClosingLayers(conversations: seq<Rule>, query: Query)
    requires Uniform(conversations, Accept) && Ranked(conversations, 0, 0)
    ensures Allows([OTHER_FRAMES] + conversations + [OTHER_PACKETS], query) <==>
            !Hit([OTHER_FRAMES], query) && (Hit(conversations, query) || !Hit([OTHER_PACKETS], query))
    ensures Ranked([OTHER_FRAMES] + conversations + [OTHER_PACKETS], -700, 1000)
  {
    LayerDecides([OTHER_PACKETS], [], Drop, query);
    assert [OTHER_PACKETS] + [] == [OTHER_PACKETS];
    LayerDecides(conversations, [OTHER_PACKETS], Accept, query);
    LayerDecides([OTHER_FRAMES], conversations + [OTHER_PACKETS], Drop, query);
    assert [OTHER_FRAMES] + conversations + [OTHER_PACKETS] == [OTHER_FRAMES] + (conversations + [OTHER_PACKETS]);
  }

  lemma FixedLayers(n: Network, control: Control, priority: int)
    ensures Uniform(SourceGuard(n), Drop) && Ranked(SourceGuard(n), -1000, -1000)
    ensures Uniform(Resolution(n), Accept) && Ranked(Resolution(n), -900, -890)
    ensures Uniform(ControlFrames(n, control, priority), Accept) && Ranked(ControlFrames(n, control, priority), priority, priority)
  {
  }

  function Closing(conversations: seq<Rule>): seq<Rule> {
    [OTHER_FRAMES] + conversations + [OTHER_PACKETS]
  }

  /** The layers of version 3 from the denials on. */
  lemma PublicLayers(n: Network, prefixes: seq<Prefix>, rest: seq<Rule>, query: Query)
    requires Ranked(rest, -700, 1000)
    ensures Allows(Denials(prefixes) + (Openings(n, PROTOCOLS) + rest), query) <==>
            !Hit(Denials(prefixes), query) && (Hit(Openings(n, PROTOCOLS), query) || Allows(rest, query))
    ensures Ranked(Denials(prefixes) + (Openings(n, PROTOCOLS) + rest), -840, 1000)
  {
    DenialsLayer(prefixes);
    OpeningsLayer(n);
    LayerDecides(Openings(n, PROTOCOLS), rest, Accept, query);
    LayerDecides(Denials(prefixes), Openings(n, PROTOCOLS) + rest, Drop, query);
  }

  lemma Regroup(guard: seq<Rule>, denials: seq<Rule>, openings: seq<Rule>, first: seq<Rule>, middle: seq<Rule>, last: seq<Rule>)
    ensures guard + denials + openings + first + middle + last == guard + (denials + (openings + (first + middle + last)))
    ensures guard + first + middle + last == guard + (first + middle + last)
  {
  }

  lemma InternetLayers(n: Network, control: Control, prefixes: seq<Prefix>, query: Query)
    ensures Allows(InternetPolicy(n, control, prefixes), query) <==>
            (!Hit(SourceGuard(n), query)
             && (Hit(Resolution(n), query) || Hit(ControlFrames(n, control, -850), query)
                 || (!Hit(Denials(prefixes), query)
                     && (Hit(Openings(n, PROTOCOLS), query)
                         || (!Hit([OTHER_FRAMES], query) && (Hit(Conversations(n, PROTOCOLS), query) || !Hit([OTHER_PACKETS], query)))))))
  {
    var closing := Closing(Conversations(n, PROTOCOLS));
    var public := Denials(prefixes) + (Openings(n, PROTOCOLS) + closing);
    ConversationsLayer(n);
    ClosingLayers(Conversations(n, PROTOCOLS), query);
    PublicLayers(n, prefixes, closing, query);
    FixedLayers(n, control, -850);
    GuardedLayers(SourceGuard(n), Resolution(n), ControlFrames(n, control, -850), public, -850, query);
    Regroup(SourceGuard(n) + Resolution(n) + ControlFrames(n, control, -850), Denials(prefixes), Openings(n, PROTOCOLS),
            [OTHER_FRAMES], Conversations(n, PROTOCOLS), [OTHER_PACKETS]);
  }

  function ControlConversation(n: Network, control: Control): seq<Rule> {
    [Rule(Accept, Some(Out), 0, Stateful(TcpOnly, n.guest, Some(control.ip), Some(control.origin.port)))]
  }

  lemma ControlLayers(n: Network, control: Control, query: Query)
    ensures Allows(ControlPolicy(n, control), query) <==>
            (!Hit(SourceGuard(n), query)
             && (Hit(Resolution(n), query) || Hit(ControlFrames(n, control, -800), query)
                 || (!Hit([OTHER_FRAMES], query) && (Hit(ControlConversation(n, control), query) || !Hit([OTHER_PACKETS], query)))))
  {
    var closing := Closing(ControlConversation(n, control));
    ClosingLayers(ControlConversation(n, control), query);
    FixedLayers(n, control, -800);
    GuardedLayers(SourceGuard(n), Resolution(n), ControlFrames(n, control, -800), closing, -800, query);
    Regroup(SourceGuard(n) + Resolution(n) + ControlFrames(n, control, -800), [], [], [OTHER_FRAMES], ControlConversation(n, control), [OTHER_PACKETS]);
  }

  /* ---------- what each layer matches ---------- */

  /** Addresses on the wire have 32 bits. */
  predicate OnWire(frame: Frame) {
    frame.payload.Ip? ==> Address(frame.payload.src) && Address(frame.payload.dst)
  }

  predicate OwnSource(n: Network, frame: Frame) {
    frame.srcMac == if frame.direction == Out then n.guestMac else n.gatewayMac
  }

  /** A correctly addressed resolution request or reply between guest and gateway. */
  predicate Resolves(n: Network, frame: Frame) {
    && frame.payload.Arp?
    && if frame.direction == Out then
         && frame.payload.senderMac == n.guestMac && frame.payload.senderIp == n.guest && frame.payload.targetIp == n.gateway
         && (frame.payload.op == Reply ==> frame.payload.targetMac == n.gatewayMac)
       else
         && frame.payload.senderMac == n.gatewayMac && frame.payload.senderIp == n.gateway && frame.payload.targetIp == n.guest
         && (frame.payload.op == Reply ==> frame.payload.targetMac == n.guestMac)
  }

  /** TCP between the guest and exactly the control endpoint, through the gateway. */
  predicate WithControl(n: Network, control: Control, frame: Frame) {
    && frame.payload.Ip? && frame.payload.transport.Tcp?
    && if frame.direction == Out then
         frame.payload.src == n.guest && frame.payload.dst == control.ip && frame.dstMac == n.gatewayMac
         && frame.payload.transport.target == control.origin.port
       else
         frame.payload.src == control.ip && frame.payload.dst == n.guest && frame.dstMac == n.guestMac
         && frame.payload.transport.source == control.origin.port
  }

  function Remote(frame: Frame): nat
    requires frame.payload.Ip?
  {
    if frame.direction == Out then frame.payload.dst else frame.payload.src
  }

  predicate Spoken(transport: Transport) {
    transport.Tcp? || transport.Udp? || transport.Icmp?
  }

  /** A packet of an admitted protocol between the guest and anyone, through the gateway. */
  predicate OwnTraffic(n: Network, frame: Frame) {
    && frame.payload.Ip? && Spoken(frame.payload.transport)
    && if frame.direction == Out then frame.payload.src == n.guest && frame.dstMac == n.gatewayMac
       else frame.payload.dst == n.guest && frame.dstMac == n.guestMac
  }

  lemma FixedLayersMatch(n: Network, control: Control, priority: int, frame: Frame)
    requires OnWire(frame) && Address(n.guest) && Address(control.ip)
    ensures Hit(SourceGuard(n), OnFrame(frame)) <==> !OwnSource(n, frame)
    ensures Hit(Resolution(n), OnFrame(frame)) <==> Resolves(n, frame)
    ensures Hit(ControlFrames(n, control, priority), OnFrame(frame)) <==> WithControl(n, control, frame)
    ensures Hit([OTHER_FRAMES], OnFrame(frame))
  {
    var g, r, c := SourceGuard(n), Resolution(n), ControlFrames(n, control, priority);
    assert g[0] in g && g[1] in g && r[0] in r && r[1] in r && r[2] in r && r[3] in r && c[0] in c && c[1] in c;
    assert OTHER_FRAMES in [OTHER_FRAMES];
    if frame.payload.Ip? {
      SingleContains(n.guest, frame.payload.src);
      SingleContains(n.guest, frame.payload.dst);
      SingleContains(control.ip, frame.payload.src);
      SingleContains(control.ip, frame.payload.dst);
    }
  }

  lemma DenialsMatch(prefixes: seq<Prefix>, frame: Frame)
    ensures Hit(Denials(prefixes), OnFrame(frame)) <==> frame.payload.Ip? && exists p :: p in prefixes && Contains(p, Remote(frame))
  {
    if Hit(Denials(prefixes), OnFrame(frame)) {
      var x :| x in Denials(prefixes) && Hits(x, OnFrame(frame));
      DenialsAre(prefixes, x);
    }
    if frame.payload.Ip? && exists p :: p in prefixes && Contains(p, Remote(frame)) {
      var p :| p in prefixes && Contains(p, Remote(frame));
      var x := DenyPair(p)[if frame.direction == Out then 0 else 1];
      DenialsAre(prefixes, x);
      assert x in DenyPair(p) && Hits(x, OnFrame(frame));
    }
  }

  lemma OpeningsMatch(n: Network, frame: Frame)
    requires OnWire(frame) && Address(n.guest)
    ensures Hit(Openings(n, PROTOCOLS), OnFrame(frame)) <==> OwnTraffic(n, frame)
  {
    if frame.payload.Ip? {
      SingleContains(n.guest, frame.payload.src);
      SingleContains(n.guest, frame.payload.dst);
    }
    if Hit(Openings(n, PROTOCOLS), OnFrame(frame)) {
      var x :| x in Openings(n, PROTOCOLS) && Hits(x, OnFrame(frame));
      OpeningsAre(n, PROTOCOLS, x);
    }
    if OwnTraffic(n, frame) {
      var p := if frame.payload.transport.Tcp? then TcpOnly else if frame.payload.transport.Udp? then UdpOnly else IcmpOnly;
      var x := OpenPair(n, p)[if frame.direction == Out then 0 else 1];
      assert p == PROTOCOLS[if p == TcpOnly then 0 else if p == UdpOnly then 1 else 2];
      OpeningsAre(n, PROTOCOLS, x);
      assert x in OpenPair(n, p) && Hits(x, OnFrame(frame));
    }
  }

  /** The guest speaks, or is answered on a flow it opened. */
  predicate Conversing(n: Network, frame: Frame, tracked: set<Flow>) {
    && frame.payload.Ip? && Spoken(frame.payload.transport)
    && if frame.direction == Out then frame.payload.src == n.guest
       else frame.payload.dst == n.guest && RepliedTo(frame) in tracked
  }

  lemma ConversationsMatch(n: Network, frame: Frame, tracked: set<Flow>)
    ensures Hit(Conversations(n, PROTOCOLS), OnPacket(frame, tracked)) <==> Conversing(n, frame, tracked)
  {
    if Hit(Conversations(n, PROTOCOLS), OnPacket(frame, tracked)) {
      var x :| x in Conversations(n, PROTOCOLS) && Hits(x, OnPacket(frame, tracked));
      ConversationsAre(n, PROTOCOLS, x);
    }
    if Conversing(n, frame, tracked) {
      var p := if frame.payload.transport.Tcp? then TcpOnly else if frame.payload.transport.Udp? then UdpOnly else IcmpOnly;
      var x := Rule(Accept, Some(Out), 0, Stateful(p, n.guest, None, None));
      assert p == PROTOCOLS[if p == TcpOnly then 0 else if p == UdpOnly then 1 else 2];
      ConversationsAre(n, PROTOCOLS, x);
      assert Hits(x, OnPacket(frame, tracked));
    }
  }

  /** Rules on frames do not look at packets, and the last rule looks at every packet. */
  lemma FrameLayersIgnorePackets(n: Network, control: Control, prefixes: seq<Prefix>, priority: int, frame: Frame, tracked: set<Flow>)
    requires frame.payload.Ip?
    ensures !Hit(SourceGuard(n), OnPacket(frame, tracked)) && !Hit(Resolution(n), OnPacket(frame, tracked))
    ensures !Hit(ControlFrames(n, control, priority), OnPacket(frame, tracked)) && !Hit(Denials(prefixes), OnPacket(frame, tracked))
    ensures !Hit(Openings(n, PROTOCOLS), OnPacket(frame, tracked)) && !Hit([OTHER_FRAMES], OnPacket(frame, tracked))
    ensures Hit([OTHER_PACKETS], OnPacket(frame, tracked))
  {
    forall x | x in Denials(prefixes)
      ensures !Hits(x, OnPacket(frame, tracked))
    {
      DenialsAre(prefixes, x);
    }
    forall x | x in Openings(n, PROTOCOLS)
      ensures !Hits(x, OnPacket(frame, tracked))
    {
      OpeningsAre(n, PROTOCOLS, x);
    }
    assert OTHER_PACKETS in [OTHER_PACKETS];
  }

  lemma ControlConversationMatches(n: Network, control: Control, frame: Frame, tracked: set<Flow>)
    ensures Hit(ControlConversation(n, control), OnPacket(frame, tracked)) <==>
            && Conversing(n, frame, tracked) && frame.payload.transport.Tcp? && Remote(frame) == control.ip
            && control.origin.port == (if frame.direction == Out then frame.payload.transport.target else frame.payload.transport.source)
    ensures !Hit(ControlConversation(n, control), OnFrame(frame))
  {
    assert ControlConversation(n, control)[0] in ControlConversation(n, control);
  }

  /* ---------- verdicts ---------- */

  /** Denied: in a reserved or a listed prefix. */
  ghost predicate Forbidden(prefixes: seq<Prefix>, a: nat) {
    exists p :: p in prefixes && Contains(p, a)
  }

  /** Version 3, exactly: resolution with the gateway, the control endpoint, and admitted protocols to and from
      addresses that are not forbidden; packets come in only as replies. */
  lemma InternetVerdict(n: Network, control: Control, prefixes: seq<Prefix>, frame: Frame, tracked: set<Flow>)
    requires OnWire(frame) && Address(n.guest) && Address(control.ip)
    ensures Accepts(InternetPolicy(n, control, prefixes), frame, tracked) <==>
            (&& OwnSource(n, frame)
             && (|| Resolves(n, frame)
                 || (&& Conversing(n, frame, tracked)
                     && (WithControl(n, control, frame) || (OwnTraffic(n, frame) && !Forbidden(prefixes, Remote(frame)))))))
  {
    InternetLayers(n, control, prefixes, OnFrame(frame));
    FixedLayersMatch(n, control, -850, frame);
    DenialsMatch(prefixes, frame);
    OpeningsMatch(n, frame);
    if frame.payload.Ip? {
      InternetLayers(n, control, prefixes, OnPacket(frame, tracked));
      FrameLayersIgnorePackets(n, control, prefixes, -850, frame, tracked);
      ConversationsMatch(n, frame, tracked);
    }
  }

  /** Version 2, exactly: resolution with the gateway and TCP with the control endpoint. */
  lemma ControlVerdict(n: Network, control: Control, frame: Frame, tracked: set<Flow>)
    requires OnWire(frame) && Address(n.guest) && Address(control.ip)
    ensures Accepts(ControlPolicy(n, control), frame, tracked) <==>
            OwnSource(n, frame) && (Resolves(n, frame) || (WithControl(n, control, frame) && Conversing(n, frame, tracked)))
  {
    ControlLayers(n, control, OnFrame(frame));
    FixedLayersMatch(n, control, -800, frame);
    ControlConversationMatches(n, control, frame, tracked);
    if frame.payload.Ip? {
      ControlLayers(n, control, OnPacket(frame, tracked));
      FrameLayersIgnorePackets(n, control, [], -800, frame, tracked);
    }
  }

  /** Version 1 accepts nothing at all. */
  lemma QuarantineVerdict(frame: Frame, tracked: set<Flow>)
    ensures !Accepts(FirewallPolicy.Quarantine(), frame, tracked)
  {
    assert FirewallPolicy.Quarantine()[0] in FirewallPolicy.Quarantine();
  }

  /** Whatever version 2 lets through, version 3 lets through. */
  lemma InternetExtendsControl(n: Network, control: Control, prefixes: seq<Prefix>, frame: Frame, tracked: set<Flow>)
    requires OnWire(frame) && Address(n.guest) && Address(control.ip)
    requires Accepts(ControlPolicy(n, control), frame, tracked)
    ensures Accepts(InternetPolicy(n, control, prefixes), frame, tracked)
  {
    ControlVerdict(n, control, frame, tracked);
    InternetVerdict(n, control, prefixes, frame, tracked);
  }

  /* ---------- what a recorded network may reach ---------- */

  /** The network is valid, and the list is its denied prefixes. */
  predicate Recorded(host: Host, n: Network, denied: seq<Prefix>) {
    NetworkValid(host, n, n.uuid) && (n.internet.Some? ==> (set p | p in denied) == n.internet.value.denied)
  }

  lemma GuestIsAddress(host: Host, n: Network)
    requires NetworkValid(host, n, n.uuid)
    ensures Address(n.guest) && Address(n.gateway)
  {
    ValidFixesIdentity(host, n, n.uuid);
    Pow2Is32();
    assert Pow2(2) == 4;
    BlockEnds(n.subnet);
  }

  lemma ReservedOrDenied(internet: Internet, denied: seq<Prefix>, a: nat)
    requires (set p | p in denied) == internet.denied
    ensures Forbidden(RESERVED + denied, a) <==> Reserved(a) || Denied(internet, a)
  {
    assert forall p :: p in RESERVED + denied <==> p in RESERVED || p in internet.denied;
    if Reserved(a) {
      var i :| 0 <= i < |RESERVED| && Contains(RESERVED[i], a);
      assert RESERVED[i] in RESERVED;
    }
  }

  lemma {:induction false} TimesIsMultiple(k: nat, s: nat)
    requires s > 0
    ensures k * s >= 0 && Multiple(k * s, s)
  {
    if k > 0 {
      TimesIsMultiple(k - 1, s);
      assert k * s == s + (k - 1) * s;
      assert Multiple(s, s);
      BlockMoves(s, (k - 1) * s, s);
    }
  }

  /** The block that starts at the `k`-th multiple of its size is a range of addresses. */
  lemma BlockIsRange(p: Prefix, k: nat, a: nat)
    requires Valid(p) && p.addr == k * Size(p) && Address(a)
    ensures Contains(p, a) <==> p.addr <= a < p.addr + Size(p)
  {
    TimesIsMultiple(k, Size(p));
    BlockIsUnique(p.addr, p.addr, Size(p));
    if p.addr <= a < p.addr + Size(p) {
      BlockIsUnique(p.addr, a, Size(p));
    }
  }

  /** The special-use ranges: the first address of each, and the first one behind it. */
  function SpecialUseRange(i: nat): (nat, nat) {
    match i
    case 0 => (0x0000_0000, 0x0100_0000) // 0.0.0.0/8
    case 1 => (0x0A00_0000, 0x0B00_0000) // 10.0.0.0/8
    case 2 => (0x6440_0000, 0x6480_0000) // 100.64.0.0/10
    case 3 => (0x7F00_0000, 0x8000_0000) // 127.0.0.0/8
    case 4 => (0xA9FE_0000, 0xA9FF_0000) // 169.254.0.0/16
    case 5 => (0xAC10_0000, 0xAC20_0000) // 172.16.0.0/12
    case 6 => (0xC000_0000, 0xC000_0100) // 192.0.0.0/24
    case 7 => (0xC000_0200, 0xC000_0300) // 192.0.2.0/24
    case 8 => (0xC058_6300, 0xC058_6400) // 192.88.99.0/24
    case 9 => (0xC0A8_0000, 0xC0A9_0000) // 192.168.0.0/16
    case 10 => (0xC612_0000, 0xC614_0000) // 198.18.0.0/15
    case 11 => (0xC633_6400, 0xC633_6500) // 198.51.100.0/24
    case 12 => (0xCB00_7100, 0xCB00_7200) // 203.0.113.0/24
    case 13 => (0xE000_0000, 0xF000_0000) // 224.0.0.0/4
    case 14 => (0xF000_0000, 0x1_0000_0000) // 240.0.0.0/4
    case _ => (0, 0)
  }

  predicate SpecialUse(a: nat) {
    exists i :: 0 <= i < 15 && SpecialUseRange(i).0 <= a < SpecialUseRange(i).1
  }

  /** The reserved prefixes cover exactly these ranges. */
  lemma ReservedIsSpecialUse(a: nat)
    requires Address(a)
    ensures Reserved(a) <==> SpecialUse(a)
  {
    forall i: nat | i < 15
      ensures Contains(RESERVED[i], a) <==> SpecialUseRange(i).0 <= a < SpecialUseRange(i).1
    {
      if i < 5 {
        LowRanges(a, i);
      } else if i < 10 {
        MiddleRanges(a, i);
      } else {
        HighRanges(a, i);
      }
    }
    if SpecialUse(a) {
      var i :| 0 <= i < 15 && SpecialUseRange(i).0 <= a < SpecialUseRange(i).1;
      assert Contains(RESERVED[i], a);
    }
  }

  lemma LowRanges(a: nat, i: nat)
    requires Address(a) && 0 <= i < 5
    ensures Contains(RESERVED[i], a) <==> SpecialUseRange(i).0 <= a < SpecialUseRange(i).1
  {
    Pow2Is32();
    assert Pow2(24) == 0x100_0000 && Pow2(22) == 0x40_0000 && Pow2(16) == 0x1_0000;
    if i == 0 {
      BlockIsRange(RESERVED[0], 0, a);
    } else if i == 1 {
      BlockIsRange(RESERVED[1], 0x0A, a);
    } else if i == 2 {
      BlockIsRange(RESERVED[2], 0x191, a);
    } else if i == 3 {
      BlockIsRange(RESERVED[3], 0x7F, a);
    } else if i == 4 {
      BlockIsRange(RESERVED[4], 0xA9FE, a);
    }
  }

  lemma MiddleRanges(a: nat, i: nat)
    requires Address(a) && 5 <= i < 10
    ensures Contains(RESERVED[i], a) <==> SpecialUseRange(i).0 <= a < SpecialUseRange(i).1
  {
    Pow2Is32();
    assert Pow2(20) == 0x10_0000 && Pow2(16) == 0x1_0000 && Pow2(8) == 0x100;
    if i == 5 {
      BlockIsRange(RESERVED[5], 0xAC1, a);
    } else if i == 6 {
      BlockIsRange(RESERVED[6], 0xC0_0000, a);
    } else if i == 7 {
      BlockIsRange(RESERVED[7], 0xC0_0002, a);
    } else if i == 8 {
      BlockIsRange(RESERVED[8], 0xC0_5863, a);
    } else if i == 9 {
      BlockIsRange(RESERVED[9], 0xC0A8, a);
    }
  }

  lemma HighRanges(a: nat, i: nat)
    requires Address(a) && 10 <= i < 15
    ensures Contains(RESERVED[i], a) <==> SpecialUseRange(i).0 <= a < SpecialUseRange(i).1
  {
    Pow2Is32();
    assert Pow2(17) == 0x2_0000 && Pow2(8) == 0x100 && Pow2(28) == 0x1000_0000;
    if i == 10 {
      BlockIsRange(RESERVED[10], 0x6309, a);
    } else if i == 11 {
      BlockIsRange(RESERVED[11], 0xC6_3364, a);
    } else if i == 12 {
      BlockIsRange(RESERVED[12], 0xCB_0071, a);
    } else if i == 13 {
      BlockIsRange(RESERVED[13], 0xE, a);
    } else if i == 14 {
      BlockIsRange(RESERVED[14], 0xF, a);
    }
  }

  /** The private ranges of RFC 1918 are among the reserved ones. */
  lemma PrivateIsReserved(a: nat)
    requires Address(a) && Private(a)
    ensures Reserved(a)
  {
    ReservedIsSpecialUse(a);
    var i := if a < 0x0B00_0000 then 1 else if a < 0xAC20_0000 then 5 else 9;
    assert SpecialUseRange(i).0 <= a < SpecialUseRange(i).1;
  }

  /** Every outgoing IP packet of a public-egress guest, exactly: from the guest's own MAC and address to its gateway, and
      either TCP to the recorded control endpoint or an admitted protocol to an address that is neither in special use nor denied. */
  lemma PublicEgress(host: Host, n: Network, denied: seq<Prefix>, frame: Frame, tracked: set<Flow>)
    requires Recorded(host, n, denied) && n.version == 3 && OnWire(frame) && frame.direction == Out && frame.payload.Ip?
    ensures Accepts(RulesOf(n, denied), frame, tracked) <==>
            (&& frame.srcMac == n.guestMac && frame.dstMac == n.gatewayMac && frame.payload.src == n.guest && Spoken(frame.payload.transport)
             && (|| (&& frame.payload.transport.Tcp? && frame.payload.dst == n.control.value.ip
                     && frame.payload.transport.target == n.control.value.origin.port)
                 || (!SpecialUse(frame.payload.dst) && !Denied(n.internet.value, frame.payload.dst))))
  {
    GuestIsAddress(host, n);
    InternetVerdict(n, n.control.value, RESERVED + denied, frame, tracked);
    ReservedIsSpecialUse(frame.payload.dst);
    ReservedOrDenied(n.internet.value, denied, frame.payload.dst);
  }

  /** Exactly which control endpoints are accepted: a unicast address outside 0.0.0.0/8, loopback, link-local and multicast,
      other than broadcast, a TCP port, and no origin that names another address. */
  lemma ControlAccepted(control: Control)
    ensures ControlOk(control) <==>
              && 0x0100_0000 <= control.ip < 0xFFFF_FFFF
              && !(0x7F00_0000 <= control.ip < 0x8000_0000) && !(0xA9FE_0000 <= control.ip < 0xA9FF_0000)
              && !(0xE000_0000 <= control.ip < 0xF000_0000)
              && 1 <= control.origin.port <= 65535
              && (control.origin.literal.None? || control.origin.literal == Some(control.ip))
  {
  }

  /** Exactly which egress policies are accepted: a DNS server outside every special-use range, and 1 to 32 masked prefixes,
      none of which holds it or is everything. */
  lemma InternetAccepted(internet: Internet)
    ensures InternetOk(internet) <==>
              && Address(internet.dns) && !SpecialUse(internet.dns) && 1 <= |internet.denied| <= 32
              && forall p :: p in internet.denied ==> Valid(p) && 1 <= p.bits <= 32 && p == Masked(p) && !Contains(p, internet.dns)
  {
    if Address(internet.dns) {
      ReservedIsSpecialUse(internet.dns);
      if !SpecialUse(internet.dns) {
        SpecialUseIsNotUnicast(internet.dns);
      }
    }
  }

  /** What is no global unicast address is in special use. */
  lemma SpecialUseIsNotUnicast(a: nat)
    requires Address(a) && !SpecialUse(a)
    ensures GlobalUnicast(a)
  {
    assert !(SpecialUseRange(0).0 <= a < SpecialUseRange(0).1);
    assert !(SpecialUseRange(3).0 <= a < SpecialUseRange(3).1);
    assert !(SpecialUseRange(4).0 <= a < SpecialUseRange(4).1);
    assert !(SpecialUseRange(13).0 <= a < SpecialUseRange(13).1);
    assert !(SpecialUseRange(14).0 <= a < SpecialUseRange(14).1);
  }

  /** The configured DNS server stays reachable, over UDP and TCP, in every state of the connection table. */
  lemma DnsIsReachable(host: Host, n: Network, denied: seq<Prefix>, transport: Transport, tracked: set<Flow>)
    requires Recorded(host, n, denied) && n.version == 3 && (transport.Tcp? || transport.Udp?)
    ensures Accepts(RulesOf(n, denied), Frame(Out, n.guestMac, n.gatewayMac, Ip(n.guest, n.internet.value.dns, transport)), tracked)
  {
    GuestIsAddress(host, n);
    ReservedIsSpecialUse(n.internet.value.dns);
    PublicEgress(host, n, denied, Frame(Out, n.guestMac, n.gatewayMac, Ip(n.guest, n.internet.value.dns, transport)), tracked);
  }

  /* ---------- runs of packets ---------- */

  /** The flows tracked after a sequence of frames: those that went out. */
  function Tracked(rules: seq<Rule>, frames: seq<Frame>): set<Flow> {
    if frames == [] then {}
    else
      var before, last := Tracked(rules, frames[..|frames| - 1]), frames[|frames| - 1];
      if Accepts(rules, last, before) && last.direction == Out && last.payload.Ip? then before + {FlowOf(last)} else before
  }

  /** The `i`-th frame of the sequence passes. */
  predicate Passes(rules: seq<Rule>, frames: seq<Frame>, i: nat)
    requires i < |frames|
  {
    Accepts(rules, frames[i], Tracked(rules, frames[..i]))
  }

  lemma {:induction false} TrackedWentOut(rules: seq<Rule>, frames: seq<Frame>, flow: Flow) returns (j: nat)
    requires flow in Tracked(rules, frames)
    ensures j < |frames| && Passes(rules, frames, j)
    ensures frames[j].direction == Out && frames[j].payload.Ip? && FlowOf(frames[j]) == flow
  {
    var k := |frames| - 1;
    if flow in Tracked(rules, frames[..k]) {
      j := TrackedWentOut(rules, frames[..k], flow);
      assert frames[..k][..j] == frames[..j];
    } else {
      j := k;
    }
  }

  /** In every sequence of packets, an IP packet comes in only as the reply to one that went out before. */
  lemma NothingUnsolicited(host: Host, n: Network, denied: seq<Prefix>, frames: seq<Frame>, i: nat) returns (j: nat)
    requires Recorded(host, n, denied) && i < |frames| && OnWire(frames[i])
    requires Passes(RulesOf(n, denied), frames, i) && frames[i].direction == In && frames[i].payload.Ip?
    ensures j < i && Passes(RulesOf(n, denied), frames, j)
    ensures frames[j].direction == Out && frames[j].payload.Ip? && FlowOf(frames[j]) == RepliedTo(frames[i])
  {
    var rules, tracked := RulesOf(n, denied), Tracked(RulesOf(n, denied), frames[..i]);
    GuestIsAddress(host, n);
    if n.version == 3 {
      InternetVerdict(n, n.control.value, RESERVED + denied, frames[i], tracked);
    } else if n.version == 2 {
      ControlVerdict(n, n.control.value, frames[i], tracked);
    } else {
      QuarantineVerdict(frames[i], tracked);
    }
    j := TrackedWentOut(rules, frames[..i], RepliedTo(frames[i]));
    assert frames[..i][..j] == frames[..j];
  }

  lemma {:induction false} TrackedExtends(n: Network, control: Control, prefixes: seq<Prefix>, frames: seq<Frame>)
    requires Address(n.guest) && Address(control.ip) && forall i :: 0 <= i < |frames| ==> OnWire(frames[i])
    ensures Tracked(ControlPolicy(n, control), frames) <= Tracked(InternetPolicy(n, control, prefixes), frames)
  {
    if frames != [] {
      var k := |frames| - 1;
      TrackedExtends(n, control, prefixes, frames[..k]);
      PassingExtends(n, control, prefixes, frames[k], Tracked(ControlPolicy(n, control), frames[..k]),
                     Tracked(InternetPolicy(n, control, prefixes), frames[..k]));
    }
  }

  lemma PassingExtends(n: Network, control: Control, prefixes: seq<Prefix>, frame: Frame, tracked: set<Flow>, more: set<Flow>)
    requires Address(n.guest) && Address(control.ip) && OnWire(frame) && tracked <= more
    ensures Accepts(ControlPolicy(n, control), frame, tracked) ==> Accepts(InternetPolicy(n, control, prefixes), frame, more)
  {
    ControlVerdict(n, control, frame, tracked);
    InternetVerdict(n, control, prefixes, frame, more);
  }

  /** In every sequence of packets, what passes under version 2 passes under version 3. */
  lemma RunsExtend(n: Network, control: Control, prefixes: seq<Prefix>, frames: seq<Frame>, i: nat)
    requires Address(n.guest) && Address(control.ip) && i < |frames| && forall j :: 0 <= j < |frames| ==> OnWire(frames[j])
    ensures Passes(ControlPolicy(n, control), frames, i) ==> Passes(InternetPolicy(n, control, prefixes), frames, i)
  {
    TrackedExtends(n, control, prefixes, frames[..i]);
    PassingExtends(n, control, prefixes, frames[i], Tracked(ControlPolicy(n, control), frames[..i]),
                   Tracked(InternetPolicy(n, control, prefixes), frames[..i]));
  }

  /* ---------- ties ---------- */

  /** The priority of a rule of version 3 fixes what it does. */
  lemma InternetActions(n: Network, control: Control, prefixes: seq<Prefix>, x: Rule)
    requires x in InternetPolicy(n, control, prefixes)
    ensures x.action == Drop <==> x.priority in {-1000, -840, -700, 1000}
  {
    FixedLayers(n, control, -850);
    DenialsLayer(prefixes);
    OpeningsLayer(n);
    ConversationsLayer(n);
    assert x in SourceGuard(n) || x in Resolution(n) || x in ControlFrames(n, control, -850) || x in Denials(prefixes)
        || x in Openings(n, PROTOCOLS) || x == OTHER_FRAMES || x in Conversations(n, PROTOCOLS) || x == OTHER_PACKETS;
  }

  lemma ControlActions(n: Network, control: Control, x: Rule)
    requires x in ControlPolicy(n, control)
    ensures x.action == Drop <==> x.priority in {-1000, -700, 1000}
  {
    FixedLayers(n, control, -800);
    assert x in SourceGuard(n) || x in Resolution(n) || x in ControlFrames(n, control, -800) || x == OTHER_FRAMES
        || x in ControlConversation(n, control) || x == OTHER_PACKETS;
  }

  lemma InternetIsTieFree(n: Network, control: Control, prefixes: seq<Prefix>)
    ensures TieFree(InternetPolicy(n, control, prefixes))
  {
    forall x, y | x in InternetPolicy(n, control, prefixes) && y in InternetPolicy(n, control, prefixes) && x.priority == y.priority
      ensures x.action == y.action
    {
      InternetActions(n, control, prefixes, x);
      InternetActions(n, control, prefixes, y);
    }
  }

  lemma ControlIsTieFree(n: Network, control: Control)
    ensures TieFree(ControlPolicy(n, control))
  {
    forall x, y | x in ControlPolicy(n, control) && y in ControlPolicy(n, control) && x.priority == y.priority
      ensures x.action == y.action
    {
      ControlActions(n, control, x);
      ControlActions(n, control, y);
    }
  }

  /** Without ties the verdict depends only on which rules there are, not on the order in which they were written. */
  lemma OrderDoesNotMatter(rules: seq<Rule>, others: seq<Rule>, query: Query)
    requires TieFree(rules) && forall x :: x in rules <==> x in others
    ensures Allows(rules, query) <==> Allows(others, query)
  {
    var best, other := Best(rules, query), Best(others, query);
    assert best.Some? ==> best.value in others;
    assert other.Some? ==> other.value in rules;
  }
}
