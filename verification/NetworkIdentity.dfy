/**
 The identity of a run's private network and the allocation of its /30 (network_identity.go).

 Run identifiers are texts. Which texts are lease UUIDs and what the two digests of a UUID are is
 given by a `Host`; nothing is assumed about the digests, so two runs may collide in them.
 */
module NetworkIdentity {
  import opened Ipv4
  import opened GuestEgress
  import opened Wrappers

  type RunId = string

  /** `start` is the leading word of one digest of the run; `bridge` and `tail` come from another. */
  datatype Host = Host(isUuid: RunId -> bool, start: RunId -> nat, bridge: RunId -> nat, tail: RunId -> nat)

  /** A locally administered MAC: its first octet and the five octets shared by guest and gateway. */
  datatype Mac = Mac(first: nat, tail: nat)

  datatype Network = Network(
    version: int, uuid: RunId, name: string, filter: string, bridge: nat,
    subnet: Prefix, gateway: nat, guest: nat, gatewayMac: Mac, guestMac: Mac,
    control: Option<Control>, internet: Option<Internet>)

  /** A masked private /30. */
  predicate Subnet(p: Prefix) {
    Valid(p) && p.bits == 30 && Private(p.addr) && p == Masked(p)
  }

  /** networkAt */
  function NetworkAt(host: Host, id: RunId, subnet: Prefix): Option<Network> {
    if !host.isUuid(id) || !Subnet(subnet) then None
    else Some(Network(1, id, "kelpie-net-" + id, "kelpie-filter-" + id, host.bridge(id),
                      subnet, subnet.addr + 1, subnet.addr + 2, Mac(2, host.tail(id)), Mac(6, host.tail(id)),
                      None, None))
  }

  predicate ControlFits(control: Control, subnet: Prefix) {
    ControlOk(control) && !Contains(subnet, control.ip)
  }

  /** runNetwork.valid: the record is exactly what its identity and its policy fields determine. */
  predicate NetworkValid(host: Host, network: Network, id: RunId) {
    var want := NetworkAt(host, id, network.subnet);
    want.Some? &&
    if network.version == 2 || network.version == 3 then
      && network.control.Some? && ControlFits(network.control.value, network.subnet)
      && if network.version == 2 then
           network == want.value.(version := 2, control := network.control)
         else
           && network.internet.Some? && InternetOk(network.internet.value)
           && Single(network.control.value.ip) in network.internet.value.denied
           && network == want.value.(version := 3, control := network.control, internet := network.internet)
    else network == want.value
  }

  lemma ValidFixesIdentity(host: Host, network: Network, id: RunId)
    requires NetworkValid(host, network, id)
    ensures network.uuid == id && host.isUuid(id) && Subnet(network.subnet)
    ensures network.name == "kelpie-net-" + id && network.bridge == host.bridge(id)
    ensures network.guestMac == Mac(6, host.tail(id)) && network.gatewayMac == Mac(2, host.tail(id))
    ensures network.gateway == network.subnet.addr + 1 && network.guest == network.subnet.addr + 2
    ensures network.version == 1 || network.version == 2 || network.version == 3
  {
  }

  /** Exactly which recorded networks are valid: a masked private /30 with the names, the bridge, the addresses and the MACs
      of its lease; from version 2 on with a control endpoint outside the subnet, and in version 3 with an egress policy that
      denies the address of that endpoint. */
  lemma NetworkAccepted(host: Host, n: Network, id: RunId)
    ensures NetworkValid(host, n, id) <==>
      && host.isUuid(id) && n.uuid == id && n.name == "kelpie-net-" + id && n.filter == "kelpie-filter-" + id && n.bridge == host.bridge(id)
      && Valid(n.subnet) && n.subnet.bits == 30 && n.subnet == Masked(n.subnet) && Private(n.subnet.addr)
      && n.gateway == n.subnet.addr + 1 && n.guest == n.subnet.addr + 2
      && n.gatewayMac == Mac(2, host.tail(id)) && n.guestMac == Mac(6, host.tail(id))
      && 1 <= n.version <= 3 && (n.version >= 2 <==> n.control.Some?) && (n.version == 3 <==> n.internet.Some?)
      && (n.control.Some? ==> ControlOk(n.control.value) && !Contains(n.subnet, n.control.value.ip))
      && (n.internet.Some? ==> InternetOk(n.internet.value) && n.control.Some? && V4(n.control.value.ip, 32) in n.internet.value.denied)
  {
  }

  /** The identities of two runs collide: same name, same bridge or a shared MAC. */
  predicate Collide(a: Network, b: Network) {
    || a.name == b.name || a.bridge == b.bridge
    || a.guestMac == b.guestMac || a.guestMac == b.gatewayMac
    || a.gatewayMac == b.guestMac || a.gatewayMac == b.gatewayMac
  }

  /** A set of unreleased networks in which nothing is shared. */
  ghost predicate Compatible(host: Host, networks: seq<Network>) {
    && (forall i :: 0 <= i < |networks| ==> NetworkValid(host, networks[i], networks[i].uuid))
    && (forall i, j :: 0 <= i < j < |networks| ==>
          !Collide(networks[i], networks[j]) && !Overlaps(networks[i].subnet, networks[j].subnet))
  }

  /** privateNetworkPool on a parsed prefix. */
  predicate PoolOk(pool: Prefix) {
    Valid(pool) && 16 <= pool.bits <= 30 && pool == Masked(pool) && Private(pool.addr)
  }

  predicate ExcludedOk(p: Prefix) {
    Valid(p) && p == Masked(p)
  }

  /** Exactly which pools and exclusions are accepted: masked prefixes, a pool of 16 to 30 bits in a range of RFC 1918. */
  lemma PrefixAccepted(p: Prefix)
    ensures PoolOk(p) <==>
      && p.V4? && 16 <= p.bits <= 30 && p.addr < 0x1_0000_0000 && BlockStart(p.addr, Pow2(32 - p.bits)) == p.addr
      && (0x0A00_0000 <= p.addr < 0x0B00_0000 || 0xAC10_0000 <= p.addr < 0xAC20_0000 || 0xC0A8_0000 <= p.addr < 0xC0A9_0000)
    ensures ExcludedOk(p) <==>
      && p.V4? && p.bits <= 32 && p.addr < 0x1_0000_0000 && BlockStart(p.addr, Pow2(32 - p.bits)) == p.addr
  {
  }

  ghost predicate Blocked(subnet: Prefix, occupied: seq<Network>, excluded: seq<Prefix>) {
    || (exists i :: 0 <= i < |occupied| && Overlaps(occupied[i].subnet, subnet))
    || (exists i :: 0 <= i < |excluded| && Overlaps(excluded[i], subnet))
  }

  /** A /30 of the pool. */
  predicate InPool(subnet: Prefix, pool: Prefix) {
    Valid(subnet) && subnet.bits == 30 && subnet == Masked(subnet) && Contains(pool, subnet.addr)
  }

  /* ---------- the slots of a pool ---------- */

  function Slots(pool: Prefix): (n: nat)
    requires PoolOk(pool)
    ensures n >= 1
  {
    Pow2(30 - pool.bits)
  }

  function Slot(pool: Prefix, i: nat): Prefix
    requires PoolOk(pool)
  {
    V4(pool.addr + 4 * i, 30)
  }

  lemma SlotCount(pool: Prefix)
    requires PoolOk(pool)
    ensures Size(pool) == 4 * Slots(pool)
    ensures Slots(pool) <= 16384
    ensures pool.addr + Size(pool) <= SPACE
    ensures Multiple(pool.addr, 4)
  {
    assert Pow2(2) == 4;
    Pow2Grows(30 - pool.bits, 14);
    assert Pow2(14) == 16384;
    BlockEnds(pool);
    Pow2Multiple(2, 32 - pool.bits);
    MultiplesAreNested(pool.addr, Size(pool), 4);
  }

  lemma {:induction false} FoursAreMultiples(i: nat)
    ensures Multiple(4 * i, 4)
  {
    if i > 0 {
      FoursAreMultiples(i - 1);
    }
  }

  lemma {:induction false} MultipleOfFour(m: nat)
    requires Multiple(m, 4)
    ensures m % 4 == 0
    decreases m
  {
    if m > 0 {
      MultipleOfFour(m - 4);
    }
  }

  /** Every slot is a /30 of the pool whose addresses are private. */
  lemma SlotInPool(pool: Prefix, i: nat)
    requires PoolOk(pool) && i < Slots(pool)
    ensures InPool(Slot(pool, i), pool) && Subnet(Slot(pool, i))
  {
    SlotCount(pool);
    FoursAreMultiples(i);
    BlockMoves(pool.addr, 4 * i, 4);
    assert Pow2(2) == 4;
    ContainsIsRange(pool, pool.addr + 4 * i);
    PrivateBlock(pool, pool.addr + 4 * i);
  }

  /** Every /30 of the pool is a slot. */
  lemma PoolIsSlots(pool: Prefix, subnet: Prefix) returns (i: nat)
    requires PoolOk(pool) && InPool(subnet, pool)
    ensures i < Slots(pool) && subnet == Slot(pool, i)
  {
    SlotCount(pool);
    assert Pow2(2) == 4;
    ContainsIsRange(pool, subnet.addr);
    MultipleOfFour(subnet.addr);
    MultipleOfFour(pool.addr);
    i := (subnet.addr - pool.addr) / 4;
  }

  /** The address arithmetic on 32-bit words, with its wrap-around. */
  function Word(x: nat): (w: nat)
    ensures w < SPACE
  {
    x % SPACE
  }

  function Remainder(x: nat, n: nat): (r: nat)
    requires n > 0
    ensures r < n
    decreases x
  {
    if x < n then x else Remainder(x - n, n)
  }

  function Probe(pool: Prefix, start: nat, offset: nat): (a: nat)
    requires PoolOk(pool)
  {
    Word(pool.addr + Word(4 * Remainder(Word(start + offset), Slots(pool))))
  }

  /** Where the probing starts. */
  function Start(host: Host, id: RunId, pool: Prefix): (start: nat)
    requires PoolOk(pool)
    ensures start < Slots(pool)
  {
    Remainder(host.start(id), Slots(pool))
  }

  /** No probe wraps, and the probes of one round are the slots from `start` on, in a circle. */
  lemma ProbeIsSlot(pool: Prefix, start: nat, offset: nat)
    requires PoolOk(pool) && start < Slots(pool) && offset < Slots(pool)
    ensures var i := if start + offset < Slots(pool) then start + offset else start + offset - Slots(pool);
      i < Slots(pool) && V4(Probe(pool, start, offset), 30) == Slot(pool, i)
  {
    SlotCount(pool);
    var n := Slots(pool);
    assert Word(start + offset) == start + offset;
    if start + offset >= n {
      assert Remainder(start + offset, n) == Remainder(start + offset - n, n) == start + offset - n;
    }
  }

  /** One round of probes reaches every slot, each at one offset only. */
  lemma ProbesReach(pool: Prefix, start: nat, i: nat) returns (offset: nat)
    requires PoolOk(pool) && start < Slots(pool) && i < Slots(pool)
    ensures offset < Slots(pool) && V4(Probe(pool, start, offset), 30) == Slot(pool, i)
    ensures forall other :: 0 <= other < Slots(pool) && Probe(pool, start, other) == Probe(pool, start, offset) ==> other == offset
  {
    offset := if i >= start then i - start else i - start + Slots(pool);
    ProbeIsSlot(pool, start, offset);
    forall other: nat | other < Slots(pool) && Probe(pool, start, other) == Probe(pool, start, offset) ensures other == offset {
      ProbeIsSlot(pool, start, other);
    }
  }

  /* ---------- allocation ---------- */

  /** What the allocator demands before it looks for a free slot. */
  ghost predicate Admissible(host: Host, id: RunId, pool: Prefix, occupied: seq<Network>, excluded: seq<Prefix>) {
    && PoolOk(pool) && host.isUuid(id) && |occupied| <= 4096 && |excluded| <= 4096
    && Compatible(host, occupied)
    && (forall i :: 0 <= i < |excluded| ==> ExcludedOk(excluded[i]))
    && Fresh(host, id, occupied)
  }

  /** The identity of the run collides with no occupied one. */
  ghost predicate Fresh(host: Host, id: RunId, occupied: seq<Network>) {
    forall i :: 0 <= i < |occupied| ==>
      && "kelpie-net-" + id != occupied[i].name && host.bridge(id) != occupied[i].bridge
      && Mac(6, host.tail(id)) != occupied[i].guestMac && Mac(6, host.tail(id)) != occupied[i].gatewayMac
      && Mac(2, host.tail(id)) != occupied[i].guestMac && Mac(2, host.tail(id)) != occupied[i].gatewayMac
  }

  /** The subnet is probed at offset `k`, and everything probed before is blocked. */
  ghost predicate FirstAt(host: Host, id: RunId, pool: Prefix, occupied: seq<Network>, excluded: seq<Prefix>, subnet: Prefix, k: nat)
    requires PoolOk(pool)
  {
    && k < Slots(pool) && subnet == V4(Probe(pool, Start(host, id, pool), k), 30)
    && forall j :: 0 <= j < k ==> Blocked(V4(Probe(pool, Start(host, id, pool), j), 30), occupied, excluded)
  }

  /** The validated names, bridges, MACs and subnets of the first `n` networks. */
  ghost predicate Collected(occupied: seq<Network>, n: nat, names: set<string>, bridges: set<nat>, macs: set<Mac>,
                            blocked: seq<Prefix>)
    requires n <= |occupied|
  {
    && (forall x :: x in names <==> exists i :: 0 <= i < n && x == occupied[i].name)
    && (forall x :: x in bridges <==> exists i :: 0 <= i < n && x == occupied[i].bridge)
    && (forall x :: x in macs <==> exists i :: 0 <= i < n && (x == occupied[i].guestMac || x == occupied[i].gatewayMac))
    && |blocked| == n && forall i :: 0 <= i < n ==> blocked[i] == occupied[i].subnet
  }

  lemma CollectedGrows(occupied: seq<Network>, n: nat, names: set<string>, bridges: set<nat>, macs: set<Mac>, blocked: seq<Prefix>)
    requires n < |occupied| && Collected(occupied, n, names, bridges, macs, blocked)
    ensures var network := occupied[n];
      Collected(occupied, n + 1, names + {network.name}, bridges + {network.bridge},
                macs + {network.guestMac, network.gatewayMac}, blocked + [network.subnet])
  {
  }

  /** Membership in what was collected is collision with an earlier network. */
  lemma CollisionIsMembership(occupied: seq<Network>, n: nat, network: Network, names: set<string>, bridges: set<nat>,
                              macs: set<Mac>, blocked: seq<Prefix>)
    requires n <= |occupied| && Collected(occupied, n, names, bridges, macs, blocked)
    ensures (forall i :: 0 <= i < n ==> !Collide(occupied[i], network)) <==>
            network.name !in names && network.bridge !in bridges && network.guestMac !in macs && network.gatewayMac !in macs
  {
  }

  /** What the checks on one more network decide, given what was collected from the earlier ones. */
  lemma CheckedAgainst(host: Host, occupied: seq<Network>, n: nat, names: set<string>, bridges: set<nat>,
                       macs: set<Mac>, blocked: seq<Prefix>)
    requires n < |occupied| && Collected(occupied, n, names, bridges, macs, blocked) && Compatible(host, occupied[..n])
    ensures var network := occupied[n];
      Compatible(host, occupied[..n + 1]) <==>
        && NetworkValid(host, network, network.uuid) && network.name !in names && network.bridge !in bridges
        && network.guestMac !in macs && network.gatewayMac !in macs
        && forall i :: 0 <= i < n ==> !Overlaps(blocked[i], network.subnet)
  {
    var network := occupied[n];
    CollisionIsMembership(occupied, n, network, names, bridges, macs, blocked);
    CompatibleNext(host, occupied, n);
  }

  lemma CompatibleNext(host: Host, occupied: seq<Network>, n: nat)
    requires n < |occupied| && Compatible(host, occupied[..n])
    ensures Compatible(host, occupied[..n + 1]) <==>
      && NetworkValid(host, occupied[n], occupied[n].uuid)
      && (forall i :: 0 <= i < n ==> !Collide(occupied[i], occupied[n]))
      && (forall i :: 0 <= i < n ==> !Overlaps(occupied[i].subnet, occupied[n].subnet))
  {
    var front := occupied[..n];
    CompatibleGrows(host, front, occupied[n]);
    assert occupied[..n + 1] == front + [occupied[n]];
    assert forall i :: 0 <= i < n ==> front[i] == occupied[i];
  }

  lemma CompatibleGrows(host: Host, networks: seq<Network>, network: Network)
    requires Compatible(host, networks)
    ensures Compatible(host, networks + [network]) <==>
      && NetworkValid(host, network, network.uuid)
      && forall i :: 0 <= i < |networks| ==> !Collide(networks[i], network) && !Overlaps(networks[i].subnet, network.subnet)
  {
    var longer := networks + [network];
    assert forall i :: 0 <= i < |networks| ==> longer[i] == networks[i];
    assert longer[|networks|] == network;
  }

  lemma PrefixIsCompatible(host: Host, networks: seq<Network>, n: nat)
    requires n <= |networks|
    ensures Compatible(host, networks) ==> Compatible(host, networks[..n])
  {
  }

  /** The validation loop over the unreleased runs. */
  method CheckOccupied(host: Host, occupied: seq<Network>)
    returns (ok: bool, names: set<string>, bridges: set<nat>, macs: set<Mac>, blocked: seq<Prefix>)
    ensures ok <==> Compatible(host, occupied)
    ensures ok ==> Collected(occupied, |occupied|, names, bridges, macs, blocked)
  {
    names, bridges, macs, blocked := {}, {}, {}, [];
    var n := 0;
    while n < |occupied|
      invariant n <= |occupied|
      invariant Compatible(host, occupied[..n])
      invariant Collected(occupied, n, names, bridges, macs, blocked)
    {
      var network := occupied[n];
      CheckedAgainst(host, occupied, n, names, bridges, macs, blocked);
      var hit := AnyOverlap(blocked, network.subnet);
      if !NetworkValid(host, network, network.uuid) || network.name in names || network.bridge in bridges
         || network.guestMac in macs || network.gatewayMac in macs || hit
      {
        PrefixIsCompatible(host, occupied, n + 1);
        ok := false;
        return;
      }
      CollectedGrows(occupied, n, names, bridges, macs, blocked);
      blocked := blocked + [network.subnet];
      names, bridges := names + {network.name}, bridges + {network.bridge};
      macs := macs + {network.guestMac, network.gatewayMac};
      n := n + 1;
    }
    assert occupied[..n] == occupied;
    ok := true;
  }

  /** A /30 of the pool that is valid for the run and disjoint from everything blocked. */
  ghost predicate GoodChoice(host: Host, id: RunId, pool: Prefix, occupied: seq<Network>, excluded: seq<Prefix>, network: Network) {
    && NetworkAt(host, id, network.subnet) == Some(network) && InPool(network.subnet, pool)
    && !Blocked(network.subnet, occupied, excluded)
    && Compatible(host, occupied + [network])
  }

  /** allocateRunNetwork */
  method AllocateRunNetwork(host: Host, id: RunId, pool: Prefix, occupied: seq<Network>, excluded: seq<Prefix>)
    returns (r: Option<Network>)
    // Soundness, and it is the first free slot of the probing order.
    ensures r.Some? ==> Admissible(host, id, pool, occupied, excluded) && GoodChoice(host, id, pool, occupied, excluded, r.value)
    ensures r.Some? ==> exists k :: FirstAt(host, id, pool, occupied, excluded, r.value.subnet, k)
    // Completeness: with admissible inputs it fails only when the pool is full.
    ensures r.None? && Admissible(host, id, pool, occupied, excluded) ==>
      forall subnet :: InPool(subnet, pool) ==> Blocked(subnet, occupied, excluded)
  {
    if !PoolOk(pool) || !host.isUuid(id) || |occupied| > 4096 || |excluded| > 4096 {
      return None;
    }
    var ok, names, bridges, macs, blocked := CheckOccupied(host, occupied);
    if !ok {
      return None;
    }
    var n := 0;
    while n < |excluded|
      invariant n <= |excluded| && |blocked| == |occupied| + n
      invariant forall i :: 0 <= i < n ==> ExcludedOk(excluded[i])
      invariant forall i :: 0 <= i < |occupied| ==> blocked[i] == occupied[i].subnet
      invariant forall i :: 0 <= i < n ==> blocked[|occupied| + i] == excluded[i]
    {
      if !ExcludedOk(excluded[n]) {
        return None;
      }
      blocked := blocked + [excluded[n]];
      n := n + 1;
    }
    FreshIsUncollected(host, id, occupied, names, bridges, macs, blocked[..|occupied|]);
    if "kelpie-net-" + id in names || host.bridge(id) in bridges || Mac(6, host.tail(id)) in macs || Mac(2, host.tail(id)) in macs {
      return None;
    }
    r := FirstFree(host, id, pool, occupied, excluded, blocked);
  }

  lemma FreshIsUncollected(host: Host, id: RunId, occupied: seq<Network>, names: set<string>, bridges: set<nat>,
                           macs: set<Mac>, blocked: seq<Prefix>)
    requires Collected(occupied, |occupied|, names, bridges, macs, blocked)
    ensures Fresh(host, id, occupied) <==>
      "kelpie-net-" + id !in names && host.bridge(id) !in bridges && Mac(6, host.tail(id)) !in macs && Mac(2, host.tail(id)) !in macs
  {
  }

  /** The probing loop over the slots of the pool. */
  method FirstFree(host: Host, id: RunId, pool: Prefix, occupied: seq<Network>, excluded: seq<Prefix>, blocked: seq<Prefix>)
    returns (r: Option<Network>)
    requires PoolOk(pool) && host.isUuid(id) && Compatible(host, occupied) && Fresh(host, id, occupied)
    requires |blocked| == |occupied| + |excluded|
    requires forall i :: 0 <= i < |occupied| ==> blocked[i] == occupied[i].subnet
    requires forall i :: 0 <= i < |excluded| ==> blocked[|occupied| + i] == excluded[i]
    ensures r.Some? ==> GoodChoice(host, id, pool, occupied, excluded, r.value)
    ensures r.Some? ==> exists k :: FirstAt(host, id, pool, occupied, excluded, r.value.subnet, k)
    ensures r.None? ==> forall subnet :: InPool(subnet, pool) ==> Blocked(subnet, occupied, excluded)
  {
    var slots := Slots(pool);
    var start := Start(host, id, pool);
    var offset := 0;
    while offset < slots
      invariant offset <= slots
      invariant forall j :: 0 <= j < offset ==> Blocked(V4(Probe(pool, start, j), 30), occupied, excluded)
    {
      var subnet := V4(Probe(pool, start, offset), 30);
      BlockedIsListed(blocked, occupied, excluded, subnet);
      var hit := AnyOverlap(blocked, subnet);
      if !hit {
        ProbeIsGood(host, id, pool, occupied, excluded, offset);
        assert FirstAt(host, id, pool, occupied, excluded, subnet, offset);
        return NetworkAt(host, id, subnet);
      }
      offset := offset + 1;
    }
    forall subnet | InPool(subnet, pool) ensures Blocked(subnet, occupied, excluded) {
      var i := PoolIsSlots(pool, subnet);
      var at := ProbesReach(pool, start, i);
    }
    r := None;
  }

  lemma ProbeIsGood(host: Host, id: RunId, pool: Prefix, occupied: seq<Network>, excluded: seq<Prefix>, offset: nat)
    requires PoolOk(pool) && host.isUuid(id) && Compatible(host, occupied) && Fresh(host, id, occupied) && offset < Slots(pool)
    requires !Blocked(V4(Probe(pool, Start(host, id, pool), offset), 30), occupied, excluded)
    ensures var r := NetworkAt(host, id, V4(Probe(pool, Start(host, id, pool), offset), 30));
      r.Some? && GoodChoice(host, id, pool, occupied, excluded, r.value)
  {
    var start := Start(host, id, pool);
    ProbeIsSlot(pool, start, offset);
    var i := if start + offset < Slots(pool) then start + offset else start + offset - Slots(pool);
    SlotInPool(pool, i);
    var network := NetworkAt(host, id, Slot(pool, i)).value;
    CompatibleGrows(host, occupied, network);
  }

  method AnyOverlap(blocked: seq<Prefix>, subnet: Prefix) returns (hit: bool)
    ensures hit <==> exists i :: 0 <= i < |blocked| && Overlaps(blocked[i], subnet)
  {
    var k := 0;
    while k < |blocked|
      invariant k <= |blocked|
      invariant forall i :: 0 <= i < k ==> !Overlaps(blocked[i], subnet)
    {
      if Overlaps(blocked[k], subnet) {
        return true;
      }
      k := k + 1;
    }
    hit := false;
  }

  lemma BlockedIsListed(blocked: seq<Prefix>, occupied: seq<Network>, excluded: seq<Prefix>, subnet: Prefix)
    requires |blocked| == |occupied| + |excluded|
    requires forall i :: 0 <= i < |occupied| ==> blocked[i] == occupied[i].subnet
    requires forall i :: 0 <= i < |excluded| ==> blocked[|occupied| + i] == excluded[i]
    ensures Blocked(subnet, occupied, excluded) <==> exists i :: 0 <= i < |blocked| && Overlaps(blocked[i], subnet)
  {
    if i :| 0 <= i < |blocked| && Overlaps(blocked[i], subnet) {
      if i >= |occupied| {
        assert Overlaps(excluded[i - |occupied|], subnet);
      }
    }
  }

  /** The result shares no address with an occupied network or an excluded prefix. */
  lemma UnblockedIsDisjoint(subnet: Prefix, occupied: seq<Network>, excluded: seq<Prefix>, a: nat)
    requires Valid(subnet) && Contains(subnet, a) && !Blocked(subnet, occupied, excluded)
    ensures forall i :: 0 <= i < |occupied| ==> !Contains(occupied[i].subnet, a)
    ensures forall i :: 0 <= i < |excluded| ==> !Contains(excluded[i], a)
  {
    forall i | 0 <= i < |occupied| ensures !Contains(occupied[i].subnet, a) {
      if Valid(occupied[i].subnet) { OverlapsMeansShared(occupied[i].subnet, subnet); }
    }
    forall i | 0 <= i < |excluded| ensures !Contains(excluded[i], a) {
      if Valid(excluded[i]) { OverlapsMeansShared(excluded[i], subnet); }
    }
  }

  ghost predicate InSome(occupied: seq<Network>, excluded: seq<Prefix>, a: nat) {
    || (exists i :: 0 <= i < |occupied| && Contains(occupied[i].subnet, a))
    || (exists i :: 0 <= i < |excluded| && Contains(excluded[i], a))
  }

  /** A subnet is blocked exactly when it shares an address with something that blocks it. */
  lemma BlockedShares(subnet: Prefix, occupied: seq<Network>, excluded: seq<Prefix>)
    requires Valid(subnet)
    ensures Blocked(subnet, occupied, excluded) <==> exists a :: Contains(subnet, a) && InSome(occupied, excluded, a)
  {
    if Blocked(subnet, occupied, excluded) {
      if i :| 0 <= i < |occupied| && Overlaps(occupied[i].subnet, subnet) {
        OverlapsMeansShared(occupied[i].subnet, subnet);
      } else {
        var i :| 0 <= i < |excluded| && Overlaps(excluded[i], subnet);
        OverlapsMeansShared(excluded[i], subnet);
      }
    } else {
      forall a | Contains(subnet, a) ensures !InSome(occupied, excluded, a) {
        UnblockedIsDisjoint(subnet, occupied, excluded, a);
      }
    }
  }
}
