/**
 The inventory of the Worker host that a network must not touch (network_host_inventory.go).
 Interface addresses are already parsed; foreign XML is a tree of values.
 */
module HostInventory {
  import opened FirewallPolicy
  import opened GuestEgress
  import opened Ipv4
  import opened NetworkIdentity
  import opened PacketPolicy
  import opened Wrappers

  /** A prefix as it was read: unusable, of another family, or IPv4. */
  datatype Reading = Malformed | OtherFamily | Read(prefix: Prefix)

  predicate Gives(reading: Reading, a: nat) {
    reading.Read? && reading.prefix.V4? && reading.prefix.addr == a
  }

  datatype Token = Text(text: string) | Device(bridge: nat) | Hardware(mac: Mac)

  datatype Node = Node(values: seq<Token>, children: seq<Node>)

  datatype Interface = Interface(device: nat, mac: Mac)

  predicate Names(n: Network, token: Token) {
    match token
    case Text(text) => text == n.uuid || text == n.name || text == n.filter
    case Device(bridge) => bridge == n.bridge
    case Hardware(mac) => mac == n.guestMac || mac == n.gatewayMac
  }

  predicate Shares(interface: Interface, n: Network) {
    interface.device == n.bridge || interface.mac == n.guestMac || interface.mac == n.gatewayMac
  }

  /** networkIdentityReferenced */
  predicate Referenced(node: Node, n: Network) {
    (exists i :: 0 <= i < |node.values| && Names(n, node.values[i])) || ReferencedIn(node.children, n)
  }

  predicate ReferencedIn(nodes: seq<Node>, n: Network) {
    nodes != [] && (Referenced(nodes[0], n) || ReferencedIn(nodes[1..], n))
  }

  /** The node is this one or below it. */
  ghost predicate Below(node: Node, root: Node)
    decreases root, 1
  {
    node == root || BelowIn(node, root.children)
  }

  ghost predicate BelowIn(node: Node, nodes: seq<Node>)
    decreases nodes, 0
  {
    nodes != [] && (Below(node, nodes[0]) || BelowIn(node, nodes[1..]))
  }

  /** A tree refers to the network exactly when one of its nodes, at any depth, names it. */
  lemma {:induction false} ReferencedSomewhere(root: Node, n: Network)
    ensures Referenced(root, n) <==> exists node, i :: Below(node, root) && 0 <= i < |node.values| && Names(n, node.values[i])
    decreases root, 1
  {
    ReferencedSomewhereIn(root.children, n);
    if exists i :: 0 <= i < |root.values| && Names(n, root.values[i]) {
      assert Below(root, root);
    }
  }

  lemma {:induction false} ReferencedSomewhereIn(nodes: seq<Node>, n: Network)
    ensures ReferencedIn(nodes, n) <==> exists node, i :: BelowIn(node, nodes) && 0 <= i < |node.values| && Names(n, node.values[i])
    decreases nodes, 0
  {
    if nodes != [] {
      ReferencedSomewhere(nodes[0], n);
      ReferencedSomewhereIn(nodes[1..], n);
    }
  }

  class Inventory {
    var complete: bool
    var excluded: seq<Prefix>
    var hostIPv4: seq<nat>
    var interfaces: seq<Interface>
    var xml: seq<Node>

    /** The excluded prefixes are IPv4 blocks, each listed once. */
    ghost predicate Valid()
      reads this`excluded
    {
      && |excluded| <= 4096
      && (forall i :: 0 <= i < |excluded| ==> ExcludedOk(excluded[i]))
      && (forall i, j :: 0 <= i < j < |excluded| ==> excluded[i] != excluded[j])
    }

    ghost predicate Excludes(a: nat)
      reads this`excluded
    {
      exists i :: 0 <= i < |excluded| && Contains(excluded[i], a)
    }

    constructor ()
      ensures Valid() && !complete && excluded == [] && hostIPv4 == []
    {
      complete, excluded, hostIPv4, interfaces, xml := false, [], [], [], [];
    }

    /** Excludes a block; other families are ignored, and a full or malformed inventory refuses. */
    method Exclude(reading: Reading) returns (ok: bool)
      requires Valid() && (reading.Read? ==> Ipv4.Valid(reading.prefix))
      modifies this`excluded
      ensures Valid() && old(excluded) <= excluded
      ensures ok <==> !reading.Malformed? && (reading.Read? ==> Masked(reading.prefix) in old(excluded) || |old(excluded)| < 4096)
      ensures ok && reading.Read? ==> forall a :: Excludes(a) <==> old(Excludes(a)) || Contains(reading.prefix, a)
      ensures !(ok && reading.Read?) ==> excluded == old(excluded)
    {
      if reading.Malformed? {
        return false;
      }
      if reading.OtherFamily? {
        return true;
      }
      var prefix := Masked(reading.prefix);
      MaskingKeepsTheBlock(reading.prefix);
      if prefix in excluded {
        return true;
      }
      if |excluded| >= 4096 {
        return false;
      }
      excluded := excluded + [prefix];
      assert forall i :: 0 <= i < |old(excluded)| ==> excluded[i] == old(excluded)[i];
      assert excluded[|old(excluded)|] == prefix;
      return true;
    }

    /** Excludes the prefixes of the host's interfaces and records its addresses. */
    method ReadAddresses(readings: seq<Reading>) returns (ok: bool)
      requires Valid() && forall i :: 0 <= i < |readings| && readings[i].Read? ==> Ipv4.Valid(readings[i].prefix)
      modifies this`excluded, this`hostIPv4
      ensures Valid()
      ensures ok ==> forall i :: 0 <= i < |readings| ==> !readings[i].Malformed?
      ensures ok ==> forall i, a :: 0 <= i < |readings| && Gives(readings[i], a) ==> a in hostIPv4
      ensures ok ==> forall i, a :: 0 <= i < |readings| && readings[i].Read? && Contains(readings[i].prefix, a) ==> Excludes(a)
      ensures ok ==> forall a :: a in hostIPv4 ==> a in old(hostIPv4) || exists i :: 0 <= i < |readings| && Gives(readings[i], a)
    {
      for i := 0 to |readings|
        invariant Valid()
        invariant forall k :: 0 <= k < i ==> !readings[k].Malformed?
        invariant forall k, a :: 0 <= k < i && Gives(readings[k], a) ==> a in hostIPv4
        invariant forall k, a :: 0 <= k < i && readings[k].Read? && Contains(readings[k].prefix, a) ==> Excludes(a)
        invariant forall a :: a in hostIPv4 ==> a in old(hostIPv4) || exists k :: 0 <= k < i && Gives(readings[k], a)
      {
        var excludedNow := Exclude(readings[i]);
        if !excludedNow {
          return false;
        }
        if readings[i].Read? && readings[i].prefix.addr !in hostIPv4 {
          if |hostIPv4| >= 4096 {
            return false;
          }
          assert Gives(readings[i], readings[i].prefix.addr);
          hostIPv4 := hostIPv4 + [readings[i].prefix.addr];
        }
      }
      return true;
    }

    /** The network can be brought up on this host. */
    predicate Available(host: Host, n: Network)
      reads this
    {
      && complete && NetworkValid(host, n, n.uuid)
      && (n.version >= 2 ==> n.control.value.ip !in hostIPv4)
      && (n.version == 3 ==> hostIPv4 != [] && forall i :: 0 <= i < |hostIPv4| ==> Single(hostIPv4[i]) in n.internet.value.denied)
      && (forall i :: 0 <= i < |excluded| ==> !Overlaps(excluded[i], n.subnet))
      && (forall i :: 0 <= i < |interfaces| ==> !Shares(interfaces[i], n))
      && (forall i :: 0 <= i < |xml| ==> !Referenced(xml[i], n))
    }

    /** No address of an available network is in an excluded block. */
    lemma AvailableIsApart(host: Host, n: Network, a: nat)
      requires Valid() && Available(host, n) && Contains(n.subnet, a)
      ensures !Excludes(a)
    {
      forall i | 0 <= i < |excluded|
        ensures !Contains(excluded[i], a)
      {
        OverlapsMeansShared(excluded[i], n.subnet);
      }
    }

    /** Nothing foreign, at any depth of any definition, bears the identity, a name, the bridge or a MAC of an available network,
        and no interface of the host bears its bridge or a MAC. */
    lemma AvailableIsUnknown(host: Host, n: Network, k: nat, node: Node, i: nat)
      requires Available(host, n)
      ensures complete && (n.version == 3 ==> hostIPv4 != [])
      ensures k < |interfaces| ==> interfaces[k].device != n.bridge && interfaces[k].mac != n.guestMac && interfaces[k].mac != n.gatewayMac
      ensures k < |xml| && Below(node, xml[k]) && i < |node.values| ==>
                && node.values[i] !in {Text(n.uuid), Text("kelpie-net-" + n.uuid), Text("kelpie-filter-" + n.uuid)}
                && node.values[i] !in {Device(n.bridge), Hardware(n.guestMac), Hardware(n.gatewayMac)}
    {
      ValidFixesIdentity(host, n, n.uuid);
      if k < |xml| {
        ReferencedSomewhere(xml[k], n);
      }
    }

    /** No packet of the guest reaches an address of the host, whatever the policy of the network and the state of its connections. */
    lemma HostsAreUnreachable(host: Host, n: Network, denied: seq<Prefix>, frame: Frame, tracked: set<Flow>)
      requires Available(host, n) && Recorded(host, n, denied) && OnWire(frame)
      requires frame.direction == Out && frame.payload.Ip? && frame.payload.dst in hostIPv4
      ensures !Accepts(RulesOf(n, denied), frame, tracked)
    {
      GuestIsAddress(host, n);
      if n.version == 3 {
        var i :| 0 <= i < |hostIPv4| && hostIPv4[i] == frame.payload.dst;
        SingleContains(hostIPv4[i], frame.payload.dst);
        assert Denied(n.internet.value, frame.payload.dst);
        PublicEgress(host, n, denied, frame, tracked);
      } else if n.version == 2 {
        ControlVerdict(n, n.control.value, frame, tracked);
      } else {
        QuarantineVerdict(frame, tracked);
      }
    }
  }

  lemma MaskingKeepsTheBlock(p: Prefix)
    requires Ipv4.Valid(p)
    ensures ExcludedOk(Masked(p)) && forall a :: Contains(Masked(p), a) <==> Contains(p, a)
  {
    BlockStartIsMultiple(p.addr, Size(p));
  }
}
