/**
 What a task VM may be allowed to reach: the recorded control endpoint (guest_control.go) and, for
 public egress, a DNS server and a list of denied prefixes (network_internet.go).

 Origins and prefixes are parsed values. The denied list is the set of its prefixes: the text form
 is sorted and free of duplicates, so list and set carry the same information.
 */
module GuestEgress {
  import opened Ipv4
  import opened Wrappers

  /** A parsed HTTPS origin; `literal` is its host when that is an IPv4 literal. */
  datatype Origin = Origin(host: string, literal: Option<nat>, port: nat)

  datatype Control = Control(origin: Origin, ip: nat)

  /** Non-public and special-use ranges that stay denied. */
  const RESERVED: seq<Prefix> := [
    V4(0x0000_0000, 8), V4(0x0A00_0000, 8), V4(0x6440_0000, 10), V4(0x7F00_0000, 8),
    V4(0xA9FE_0000, 16), V4(0xAC10_0000, 12), V4(0xC000_0000, 24), V4(0xC000_0200, 24),
    V4(0xC058_6300, 24), V4(0xC0A8_0000, 16), V4(0xC612_0000, 15),
    V4(0xC633_6400, 24), V4(0xCB00_7100, 24), V4(0xE000_0000, 4), V4(0xF000_0000, 4)
  ]

  /** netip.Addr.IsGlobalUnicast for IPv4: neither unspecified, broadcast, loopback, link-local nor multicast. */
  predicate GlobalUnicast(a: nat) {
    && 0 < a < SPACE - 1
    && !(0x7F00_0000 <= a < 0x8000_0000) && !(0xA9FE_0000 <= a < 0xA9FF_0000) && !(0xE000_0000 <= a < 0xF000_0000)
  }

  /** parseGuestControl accepts the pair. */
  predicate ControlOk(control: Control) {
    && GlobalUnicast(control.ip) && control.ip >= 0x100_0000
    && 1 <= control.origin.port <= 65535
    && (control.origin.literal.Some? ==> control.origin.literal.value == control.ip)
  }

  predicate Reserved(a: nat) {
    exists i :: 0 <= i < |RESERVED| && Contains(RESERVED[i], a)
  }

  /** publicGuestIPv4 */
  predicate PublicGuest(a: nat) {
    GlobalUnicast(a) && !Reserved(a)
  }

  datatype Internet = Internet(dns: nat, denied: set<Prefix>)

  predicate DeniedPrefixOk(p: Prefix, dns: nat) {
    Valid(p) && p.bits != 0 && p == Masked(p) && !Contains(p, dns)
  }

  /** parseGuestInternet accepts the pair. */
  predicate InternetOk(internet: Internet) {
    && PublicGuest(internet.dns)
    && 1 <= |internet.denied| <= 32
    && forall p :: p in internet.denied ==> DeniedPrefixOk(p, internet.dns)
  }

  predicate Denied(internet: Internet, a: nat) {
    exists p :: p in internet.denied && Contains(p, a)
  }

  function Single(a: nat): Prefix {
    V4(a, 32)
  }

  lemma SingleContains(a: nat, b: nat)
    requires Address(a) && Address(b)
    ensures Valid(Single(a)) && Masked(Single(a)) == Single(a)
    ensures Contains(Single(a), b) <==> a == b
  {
    assert Pow2(0) == 1;
    OneIsFine(a);
    OneIsFine(b);
  }

  lemma {:induction false} OneIsFine(a: nat)
    ensures BlockStart(a, 1) == a
  {
    if a > 0 {
      OneIsFine(a - 1);
    }
  }

  function Singles(addresses: seq<nat>): set<Prefix> {
    set i | 0 <= i < |addresses| :: Single(addresses[i])
  }

  function Extended(internet: Internet, hosts: seq<nat>, control: Control): Internet {
    Internet(internet.dns, internet.denied + {Single(control.ip)} + Singles(hosts))
  }

  lemma SinglesGrow(hosts: seq<nat>, i: nat)
    requires i < |hosts|
    ensures Singles(hosts[..i + 1]) == Singles(hosts[..i]) + {Single(hosts[i])}
  {
    var front, longer := hosts[..i], hosts[..i + 1];
    assert forall j :: 0 <= j < i ==> front[j] == longer[j];
    assert longer[i] == hosts[i];
  }

  predicate HostsOk(hosts: seq<nat>, control: Control) {
    1 <= |hosts| <= 32 && forall i :: 0 <= i < |hosts| ==> Address(hosts[i]) && hosts[i] != control.ip
  }

  /** Adds the hosts one by one; a malformed address or the control address stops it. */
  method AddHosts(start: set<Prefix>, hosts: seq<nat>, control: Control) returns (ok: bool, values: set<Prefix>)
    ensures ok <==> forall i :: 0 <= i < |hosts| ==> Address(hosts[i]) && hosts[i] != control.ip
    ensures ok ==> values == start + Singles(hosts)
  {
    values := start;
    var i := 0;
    while i < |hosts|
      invariant i <= |hosts|
      invariant forall j :: 0 <= j < i ==> Address(hosts[j]) && hosts[j] != control.ip
      invariant values == start + Singles(hosts[..i])
    {
      if !Address(hosts[i]) || hosts[i] == control.ip {
        return false, values;
      }
      SinglesGrow(hosts, i);
      values := values + {Single(hosts[i])};
      i := i + 1;
    }
    assert hosts[..|hosts|] == hosts;
    ok := true;
  }

  /** Adds every current host address and the control address to the denied list. */
  method WithHost(internet: Internet, complete: bool, hosts: seq<nat>, control: Control) returns (r: Option<Internet>)
    ensures r.Some? <==>
      && InternetOk(internet) && ControlOk(control) && complete
      && 1 <= |hosts| <= 32 && (forall i :: 0 <= i < |hosts| ==> Address(hosts[i]) && hosts[i] != control.ip)
      && InternetOk(Extended(internet, hosts, control))
    ensures r.Some? ==> r.value == Extended(internet, hosts, control)
  {
    if !InternetOk(internet) || !ControlOk(control) || !complete || |hosts| == 0 || |hosts| > 32 {
      return None;
    }
    var ok, values := AddHosts(internet.denied + {Single(control.ip)}, hosts, control);
    var extended := Internet(internet.dns, values);
    r := if ok && InternetOk(extended) then Some(extended) else None;
  }

  /** After success neither a host address nor the control address is left allowed, and DNS still is. */
  lemma WithHostDenies(internet: Internet, hosts: seq<nat>, control: Control, a: nat)
    requires InternetOk(Extended(internet, hosts, control))
    requires ControlOk(control) && HostsOk(hosts, control)
    ensures var extended := Extended(internet, hosts, control);
      && (Address(a) ==> (Denied(extended, a) <==> Denied(internet, a) || a == control.ip || a in hosts))
      && !Denied(extended, internet.dns) && internet.dns != control.ip && internet.dns !in hosts
  {
    var extended := Extended(internet, hosts, control);
    DeniedBy(internet, hosts, control, internet.dns);
    if Address(a) { DeniedBy(internet, hosts, control, a); }
  }

  lemma DeniedBy(internet: Internet, hosts: seq<nat>, control: Control, a: nat)
    requires ControlOk(control) && HostsOk(hosts, control) && Address(a)
    ensures var extended := Extended(internet, hosts, control);
      Denied(extended, a) <==> Denied(internet, a) || a == control.ip || a in hosts
  {
    var extended := Extended(internet, hosts, control);
    SingleContains(control.ip, a);
    forall i | 0 <= i < |hosts| ensures Contains(Single(hosts[i]), a) <==> hosts[i] == a {
      SingleContains(hosts[i], a);
    }
    if Denied(internet, a) {
      var p :| p in internet.denied && Contains(p, a);
      assert p in extended.denied;
    }
    if a == control.ip {
      assert Single(control.ip) in extended.denied;
    }
    if a in hosts {
      var i :| 0 <= i < |hosts| && hosts[i] == a;
      assert Single(hosts[i]) in Singles(hosts);
      assert Single(hosts[i]) in extended.denied;
    }
  }
}
