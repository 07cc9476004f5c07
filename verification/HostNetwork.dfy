/**
 Provisioning and cleanup of one run's network, filter, domain and files on the Worker host
 (network_provision.go, network_cleanup.go, vm_cleanup.go, executor.go), for networks of versions 1 and 2.

 The host answers every command as it likes: a command may fail without effect, or take effect and still be
 reported as failed, and the Worker may stop after any effect. `history` holds the state after each effect,
 so that what holds of all of `history` holds at every crash point.
 */
module HostNetwork {

  datatype FileState = Missing | Partial | Exact

  /** `Other` stands for something under this identity that is not exactly what the run defines. */
  datatype FilterState = NoFilter | Defined | OtherFilter

  datatype NetState = NoNet | Inactive | Active | OtherNet

  datatype DomainState = NoDomain | Running | ShutOff | OtherDomain

  datatype Phase = Prepared | Started | CleanupPending | Cleaned | Released

  /** `torn` says that a marker file of the journal was cut short, which makes the journal unreadable; `disks` that any disk or
      seed file of the run exists; `filterMade` and `netMade` that the run itself defined them. */
  datatype Snapshot = Snapshot(phase: Phase, torn: bool, filterXml: FileState, networkXml: FileState, disks: bool,
                               filter: FilterState, net: NetState, domain: DomainState, filterMade: bool, netMade: bool)

  datatype Definition = FilterXml | NetworkXml

  function FileOf(s: Snapshot, which: Definition): FileState {
    if which == FilterXml then s.filterXml else s.networkXml
  }

  function WithFile(s: Snapshot, which: Definition, state: FileState): Snapshot {
    if which == FilterXml then s.(filterXml := state) else s.(networkXml := state)
  }

  function Rank(phase: Phase): nat {
    match phase
    case Prepared => 0
    case Started => 1
    case CleanupPending => 2
    case Cleaned => 3
    case Released => 4
  }

  /** nextRunPhase */
  predicate NextPhase(current: Phase, next: Phase) {
    || (current == Prepared && (next == Started || next == CleanupPending))
    || (current == Started && next == CleanupPending)
    || (current == CleanupPending && next == Cleaned)
    || (current == Cleaned && next == Released)
  }

  /** How the write of a marker ends: complete, complete but reported as failed, cut short, or without a file. */
  datatype Write = Complete | Unreported | CutShort | Unwritten

  function Marked(s: Snapshot, phase: Phase, w: Write): Snapshot {
    match w
    case Complete => s.(phase := phase)
    case Unreported => s.(phase := phase)
    case CutShort => s.(torn := true)
    case Unwritten => s
  }

  /** networkCreationRecorded: both definitions are there, byte for byte. */
  predicate CreationRecorded(s: Snapshot) {
    s.networkXml == Exact && s.filterXml == Exact
  }

  predicate HasNet(s: Snapshot) {
    s.net == Inactive || s.net == Active
  }

  predicate HasDomain(s: Snapshot) {
    s.domain == Running || s.domain == ShutOff
  }

  /** Nothing of the run is left on the host. */
  predicate Empty(s: Snapshot) {
    s.filter == NoFilter && s.net == NoNet && s.domain == NoDomain && s.filterXml == Missing && s.networkXml == Missing && !s.disks
  }

  /** Nothing that could use a file of the run is left. */
  predicate Vacated(s: Snapshot) {
    s.filter == NoFilter && s.net == NoNet && s.domain == NoDomain
  }

  /** Something that the run did not make has exactly the shape of its network or filter. */
  predicate Foreign(s: Snapshot) {
    (HasNet(s) && !s.netMade) || (s.filter == Defined && !s.filterMade)
  }

  /** What holds at every crash point. */
  predicate Safe(s: Snapshot) {
    && (HasNet(s) && s.netMade ==> s.filter == Defined && s.filterMade)
    && (HasNet(s) && s.netMade ==> CreationRecorded(s))
    && (s.filter == Defined && s.filterMade ==> CreationRecorded(s))
    && (Foreign(s) ==> !CreationRecorded(s))
    && (HasDomain(s) ==> s.disks && HasNet(s) && s.netMade)
    && (Rank(s.phase) >= Rank(Cleaned) ==> Empty(s))
  }

  /** What one effect may change. */
  predicate Effect(a: Snapshot, b: Snapshot) {
    && Rank(a.phase) <= Rank(b.phase) && (a.torn ==> b == a)
    && ((a.filterXml != Missing && b.filterXml == Missing) || (a.networkXml != Missing && b.networkXml == Missing) || (a.disks && !b.disks)
        ==> Vacated(a))
    && (HasNet(a) && !HasNet(b) ==> a.net == Inactive && a.domain == NoDomain && CreationRecorded(a))
    && (a.net == Active && b.net == Inactive ==> a.domain == NoDomain && CreationRecorded(a))
    && (a.filter == Defined && b.filter != Defined ==> a.net == NoNet && a.domain == NoDomain && CreationRecorded(a))
    && (HasDomain(a) && !HasDomain(b) ==> a.domain == ShutOff)
    && (a.net == OtherNet <==> b.net == OtherNet) && (a.filter == OtherFilter <==> b.filter == OtherFilter)
    && (a.domain == OtherDomain <==> b.domain == OtherDomain)
    && (Rank(a.phase) < Rank(Cleaned) <= Rank(b.phase) ==> Empty(a))
    && (a.net != b.net ==> b.netMade) && (a.filter != b.filter ==> b.filterMade)
    && (a.netMade != b.netMade ==> a.net == NoNet) && (a.filterMade != b.filterMade ==> a.filter == NoFilter)
  }

  /** Everything under the run's identity was made by the run. */
  predicate Own(s: Snapshot) {
    && s.net != OtherNet && s.filter != OtherFilter && s.domain != OtherDomain
    && (HasNet(s) ==> s.netMade) && (s.filter == Defined ==> s.filterMade)
  }

  /** The refusal to clean what was not recorded never meets anything that the run made. */
  lemma RefusalStrandsNothing(s: Snapshot)
    requires Safe(s) && Own(s) && (HasNet(s) || s.filter == Defined)
    ensures CreationRecorded(s)
  {
  }

  /** A history of effects, all of them at safe states. */
  ghost predicate Chain(history: seq<Snapshot>) {
    && (forall i :: 0 <= i < |history| ==> Safe(history[i]))
    && (forall i :: 0 <= i < |history| - 1 ==> Effect(history[i], history[i + 1]))
  }

  /** At every crash point: an own network has its own filter, an own network or filter both exact definitions on record, a
      domain its disks and an own network; and of a run that is recorded as cleaned nothing is left. */
  lemma EveryCrashPoint(history: seq<Snapshot>, i: nat)
    requires Chain(history) && i < |history|
    ensures var s := history[i];
            && (s.net in {Inactive, Active} && s.netMade ==> s.filter == Defined && s.filterMade)
            && ((s.net in {Inactive, Active} && s.netMade) || (s.filter == Defined && s.filterMade) ==>
                  s.filterXml == Exact && s.networkXml == Exact)
            && ((s.net in {Inactive, Active} && !s.netMade) || (s.filter == Defined && !s.filterMade) ==>
                  s.filterXml != Exact || s.networkXml != Exact)
            && (s.domain in {Running, ShutOff} ==> s.disks && s.net in {Inactive, Active} && s.netMade)
            && (s.phase in {Cleaned, Released} ==>
                  s.filter == NoFilter && s.net == NoNet && s.domain == NoDomain
                  && s.filterXml == Missing && s.networkXml == Missing && !s.disks)
  {
  }

  /** Every effect: the journal never goes back, and passes to cleaned only over an empty host; a network is stopped and removed
      without a domain and with its creation on record, stopped before it is removed; a domain is removed when it is off. */
  lemma EveryEffect(history: seq<Snapshot>, i: nat)
    requires Chain(history) && i + 1 < |history|
    ensures var a, b := history[i], history[i + 1];
            && (a.phase == Released ==> b.phase == Released) && (a.phase == Cleaned ==> b.phase in {Cleaned, Released})
            && (a.phase == CleanupPending ==> b.phase !in {Prepared, Started}) && (a.phase == Started ==> b.phase != Prepared)
            && (a.phase !in {Cleaned, Released} && b.phase in {Cleaned, Released} ==>
                  a.filter == NoFilter && a.net == NoNet && a.domain == NoDomain
                  && a.filterXml == Missing && a.networkXml == Missing && !a.disks)
            && (a.net == Active && b.net != Active ==>
                  b.net == Inactive && a.domain == NoDomain && a.filterXml == Exact && a.networkXml == Exact)
            && (a.net == Inactive && b.net !in {Inactive, Active} ==>
                  a.domain == NoDomain && a.filterXml == Exact && a.networkXml == Exact)
            && (a.domain == Running ==> b.domain in {Running, ShutOff})
            && (a.filter == NoFilter && b.filter != NoFilter ==> b.filterMade)
  {
    assert Effect(history[i], history[i + 1]);
  }

  /** A definition of the run, or its disks, are gone. */
  predicate FileGone(a: Snapshot, b: Snapshot) {
    || (a.filterXml != Missing && b.filterXml == Missing) || (a.networkXml != Missing && b.networkXml == Missing) || (a.disks && !b.disks)
  }

  /** A piece of evidence or a disk of a run goes only after network, filter and domain were gone at one moment. */
  lemma {:induction false} FilesGoLast(history: seq<Snapshot>, i: nat, j: nat) returns (k: nat)
    requires Chain(history) && i < j < |history|
    requires var a, b := history[i], history[j];
             (a.filterXml != Missing && b.filterXml == Missing) || (a.networkXml != Missing && b.networkXml == Missing) || (a.disks && !b.disks)
    ensures i <= k < j && history[k].filter == NoFilter && history[k].net == NoNet && history[k].domain == NoDomain
    decreases j - i
  {
    if i < j - 1 && FileGone(history[i], history[j - 1]) {
      k := FilesGoLast(history, i, j - 1);
    } else {
      k := j - 1;
      assert Effect(history[k], history[k + 1]);
    }
  }

  /** A filter that the run made goes only after its network, while the creation is still on record. */
  lemma {:induction false} FilterGoesAfterNetwork(history: seq<Snapshot>, i: nat, j: nat) returns (k: nat)
    requires Chain(history) && i < j < |history| && history[i].filter == Defined && history[j].filter != Defined
    ensures i <= k < j && history[k].net == NoNet && history[k].domain == NoDomain && CreationRecorded(history[k])
    decreases j - i
  {
    if history[j - 1].filter != Defined {
      k := FilterGoesAfterNetwork(history, i, j - 1);
    } else {
      k := j - 1;
      assert Effect(history[k], history[k + 1]);
    }
  }

  /** What the run did not make stays as it is in every history. */
  lemma {:induction false} ForeignStays(history: seq<Snapshot>, i: nat, j: nat)
    requires Chain(history) && i <= j < |history|
    ensures HasNet(history[i]) && !history[i].netMade ==> history[j].net == history[i].net && !history[j].netMade
    ensures history[i].filter == Defined && !history[i].filterMade ==> history[j].filter == Defined && !history[j].filterMade
    ensures (history[i].net == OtherNet ==> history[j].net == OtherNet)
            && (history[i].filter == OtherFilter ==> history[j].filter == OtherFilter)
            && (history[i].domain == OtherDomain ==> history[j].domain == OtherDomain)
    decreases j
  {
    if i < j {
      ForeignStays(history, i, j - 1);
      assert Effect(history[j - 1], history[j]);
    }
  }

  /** Once a marker was cut short nothing of the run changes any more. */
  lemma {:induction false} TornIsForever(history: seq<Snapshot>, i: nat, j: nat)
    requires Chain(history) && i <= j < |history| && history[i].torn
    ensures history[j] == history[i]
    decreases j
  {
    if i < j {
      TornIsForever(history, i, j - 1);
      assert Effect(history[j - 1], history[j]);
    }
  }

  /** A run that started its domain, and whose marker of it was cut short. */
  const STRANDED := Snapshot(Prepared, true, Exact, Exact, true, Defined, Active, Running, true, true)

  class Host {
    var s: Snapshot
    /** Every command succeeds and every probe answers; how a marker is written is said at each step. */
    var healthy: bool
    ghost var history: seq<Snapshot>

    ghost predicate Valid()
      reads this
    {
      history != [] && history[|history| - 1] == s && Chain(history)
    }

    /** A run that was just prepared, on a host that may already have anything under its identity. */
    constructor (filter: FilterState, net: NetState, domain: DomainState, healthy: bool)
      requires domain == NoDomain || domain == OtherDomain
      ensures Valid() && s == Snapshot(Prepared, false, Missing, Missing, false, filter, net, domain, false, false) && this.healthy == healthy
    {
      s := Snapshot(Prepared, false, Missing, Missing, false, filter, net, domain, false, false);
      this.healthy := healthy;
      history := [Snapshot(Prepared, false, Missing, Missing, false, filter, net, domain, false, false)];
    }

    /** One effect on the host. */
    method Become(t: Snapshot)
      requires Valid() && Safe(t) && Effect(s, t)
      modifies this`s, this`history
      ensures Valid() && s == t && history == old(history) + [t]
    {
      s := t;
      history := history + [t];
    }

    /** Whether a command takes effect, and whether that is reported. */
    method Attempt() returns (happens: bool, told: bool)
      ensures told ==> happens
      ensures healthy ==> told
    {
      happens, told := *, *;
      if healthy {
        happens, told := true, true;
      } else {
        told := told && happens;
      }
    }

    /** A read-only question; without an answer the caller stops. */
    method Probe() returns (answered: bool)
      ensures healthy ==> answered
    {
      answered := *;
      if healthy {
        answered := true;
      }
    }

    /* ---------- provisioning ---------- */

    /** Writes a definition file that does not exist yet; a crash may leave part of it. */
    method WriteDefinition(which: Definition) returns (ok: bool)
      requires Valid() && !s.torn && s.phase == Prepared && Vacated(s)
      modifies this`s, this`history
      ensures Valid() && old(history) <= history && s == WithFile(old(s), which, FileOf(s, which))
      ensures ok ==> FileOf(old(s), which) == Missing && FileOf(s, which) == Exact
      ensures healthy && FileOf(old(s), which) == Missing ==> ok
    {
      if FileOf(s, which) != Missing {
        return false;
      }
      var created, told := Attempt();
      if created {
        Become(WithFile(s, which, Partial));
      }
      if !told {
        return false;
      }
      var written, synced := Attempt();
      if written {
        Become(WithFile(s, which, Exact));
      }
      return synced;
    }

    /** No network and no domain uses the identity, and the run is still prepared. */
    method CheckVacant() returns (ok: bool)
      ensures ok ==> s.net == NoNet && s.domain == NoDomain && s.phase == Prepared && !s.torn
      ensures healthy && s.net == NoNet && s.domain == NoDomain && s.phase == Prepared && !s.torn ==> ok
    {
      var answered := Probe();
      ok := answered && s.net == NoNet && s.domain == NoDomain && s.phase == Prepared && !s.torn;
    }

    method DefineFilter() returns (ok: bool)
      requires Valid() && !s.torn && s.phase == Prepared && Vacated(s) && CreationRecorded(s)
      modifies this`s, this`history
      ensures Valid() && old(history) <= history
      ensures s == old(s) || s == old(s).(filter := Defined, filterMade := true)
      ensures ok ==> s.filter == Defined
      ensures healthy ==> ok
    {
      var happens, told := Attempt();
      if happens {
        Become(s.(filter := Defined, filterMade := true));
      }
      var answered := Probe();
      return told && answered;
    }

    /** Defines the network under its filter, and starts it. */
    method DefineNetwork() returns (ok: bool)
      requires Valid() && !s.torn && s.phase == Prepared && s.filter == Defined && s.filterMade && CreationRecorded(s)
      modifies this`s, this`history
      ensures Valid() && old(history) <= history
      ensures s == old(s) || (s == old(s).(net := s.net, netMade := true) && HasNet(s))
      ensures ok ==> s.net == Active && s.netMade
      ensures healthy && old(s.net == NoNet && s.domain == NoDomain) ==> ok
    {
      var vacant := CheckVacant();
      if !vacant {
        return false;
      }
      var happens, told := Attempt();
      if happens {
        Become(s.(net := Inactive, netMade := true));
      }
      var answered := Probe();
      if !told || !answered {
        return false;
      }
      happens, told := Attempt();
      if happens {
        Become(s.(net := Active));
      }
      answered := Probe();
      return told && answered;
    }

    /** Records both definitions, defines the filter and only then the network, and starts it. */
    method Create() returns (ok: bool)
      requires Valid()
      modifies this`s, this`history
      ensures Valid() && old(history) <= history
      ensures ok ==> s.phase == Prepared && s.net == Active && s.filter == Defined && s.netMade && s.filterMade && CreationRecorded(s)
      ensures s.disks == old(s.disks) && s.domain == old(s.domain) && s.phase == old(s.phase) && s.torn == old(s.torn)
      ensures healthy && old(s.phase == Prepared && !s.torn && Vacated(s) && s.filterXml == Missing && s.networkXml == Missing) ==> ok
      ensures old(Own(s)) ==> Own(s)
    {
      var vacant := CheckVacant();
      if !vacant || s.filter != NoFilter {
        return false;
      }
      ok := WriteDefinition(FilterXml);
      if !ok {
        return false;
      }
      ok := WriteDefinition(NetworkXml);
      if !ok {
        return false;
      }
      ok := DefineFilter();
      if !ok {
        return false;
      }
      ok := DefineNetwork();
    }

    /** Defines and starts the domain; a failed start may leave it defined, and off. */
    method DefineDomain() returns (ok: bool)
      requires Valid() && !s.torn && s.net == Active && s.netMade && s.disks && s.domain == NoDomain && Rank(s.phase) < Rank(Cleaned)
      modifies this`s, this`history
      ensures Valid() && old(history) <= history && s == old(s).(domain := s.domain) && s.domain != OtherDomain
      ensures ok ==> s.domain == Running
      ensures healthy ==> ok
    {
      var defined, reported := Attempt();
      if defined {
        Become(s.(domain := ShutOff));
      }
      var started, told := Attempt();
      if defined && started {
        Become(s.(domain := Running));
      }
      return reported && told;
    }

    method StartDomain(w: Write) returns (ok: bool)
      requires Valid() && !s.torn && s.phase == Prepared && s.net == Active && s.netMade && s.disks
      modifies this`s, this`history
      ensures Valid() && old(history) <= history && s == old(s).(domain := s.domain, phase := s.phase, torn := s.torn)
      ensures ok ==> s.phase == Started && s.domain == Running && !s.torn
      ensures old(s.domain) == OtherDomain <==> s.domain == OtherDomain
      ensures healthy && old(s.domain) == NoDomain ==> s == Marked(old(s).(domain := Running), Started, w)
    {
      if s.domain != NoDomain {
        return false;
      }
      ok := DefineDomain();
      if !ok {
        return false;
      }
      ok := Advance(Started, w);
    }

    /** Prepares the disks, provisions the network, and only then starts the domain. `w` is how the marker of that is written. */
    method Execute(w: Write) returns (ok: bool)
      requires Valid() && s.phase == Prepared && !s.torn
      modifies this`s, this`history
      ensures Valid() && old(history) <= history
      ensures ok ==> s.phase == Started && s.domain == Running && s.net == Active && s.filter == Defined
      ensures old(Own(s)) ==> Own(s)
      ensures healthy && old(Vacated(s) && s.filterXml == Missing && s.networkXml == Missing) ==>
                s == Marked(Snapshot(Prepared, false, Exact, Exact, true, Defined, Active, Running, true, true), Started, w)
    {
      var happens, told := Attempt();
      if happens {
        Become(s.(disks := true));
      }
      if !told {
        return false;
      }
      ok := Create();
      if !ok {
        return false;
      }
      ok := StartDomain(w);
    }

    /* ---------- cleanup ---------- */

    /** Shuts the run's domain down, by force if need be, and undefines it once it is off. */
    method StopDomain() returns (ok: bool)
      requires Valid() && !s.torn && s.domain != NoDomain && Rank(s.phase) < Rank(Cleaned)
      modifies this`s, this`history
      ensures Valid() && old(history) <= history && s == old(s).(domain := s.domain)
      ensures ok ==> s.domain == NoDomain
      ensures healthy && old(s.domain) != OtherDomain ==> ok
      ensures old(s.domain) == OtherDomain <==> s.domain == OtherDomain
    {
      if s.domain == OtherDomain {
        return false;
      }
      var answered := Probe();
      if !answered {
        return false;
      }
      var happens, told: bool;
      if s.domain == Running {
        happens, told := Attempt();
        if happens {
          Become(s.(domain := ShutOff));
        }
        answered := Probe();
        if !answered {
          return false;
        }
        if s.domain == Running {
          happens, told := Attempt();
          if happens {
            Become(s.(domain := ShutOff));
          }
          if !told {
            return false;
          }
        }
      }
      happens, told := Attempt();
      if happens {
        Become(s.(domain := NoDomain));
      }
      return told;
    }

    /** Nothing refers to the network or the filter, and they are exactly the run's if they exist. */
    method Verify() returns (ok: bool, netExists: bool, filterExists: bool)
      ensures ok ==> s.domain == NoDomain && s.net != OtherNet && s.filter != OtherFilter
      ensures ok ==> netExists == HasNet(s) && filterExists == (s.filter == Defined)
      ensures healthy && s.domain == NoDomain && s.net != OtherNet && s.filter != OtherFilter ==> ok
    {
      var answered := Probe();
      ok := answered && s.domain == NoDomain && s.net != OtherNet && s.filter != OtherFilter;
      netExists, filterExists := s.net == Inactive || s.net == Active, s.filter == Defined;
    }

    method DestroyNetwork() returns (ok: bool)
      requires Valid() && !s.torn && s.net == Active && CreationRecorded(s) && s.domain == NoDomain
      modifies this`s, this`history
      ensures Valid() && old(history) <= history && (s == old(s) || s == old(s).(net := Inactive))
      ensures ok ==> s.net == Inactive
      ensures healthy && s.filter != OtherFilter ==> ok
    {
      var verified, _, _ := Verify();
      if !verified {
        return false;
      }
      var happens, told := Attempt();
      if happens {
        Become(s.(net := Inactive));
      }
      return told;
    }

    /** Destroys and undefines a network whose creation is recorded. */
    method RemoveNetwork() returns (ok: bool)
      requires Valid() && !s.torn && HasNet(s) && CreationRecorded(s) && s.domain == NoDomain
      modifies this`s, this`history
      ensures Valid() && old(history) <= history && s == old(s).(net := s.net)
      ensures ok ==> s.net == NoNet
      ensures HasNet(s) || s.net == NoNet
      ensures healthy && s.filter != OtherFilter ==> ok
    {
      var answered := Probe();
      if !answered {
        return false;
      }
      if s.net == Active {
        ok := DestroyNetwork();
        if !ok {
          return false;
        }
      }
      var verified, _, _ := Verify();
      if !verified || s.net != Inactive {
        return false;
      }
      var happens, told := Attempt();
      if happens {
        Become(s.(net := NoNet));
      }
      return told;
    }

    /** Undefines a filter once its network is gone. */
    method RemoveFilter() returns (ok: bool)
      requires Valid() && !s.torn && s.filter == Defined && CreationRecorded(s)
      modifies this`s, this`history
      ensures Valid() && old(history) <= history && s == old(s).(filter := s.filter)
      ensures ok ==> s.filter == NoFilter
      ensures s.filter == Defined || s.filter == NoFilter
      ensures healthy && s.net == NoNet && s.domain == NoDomain ==> ok
    {
      var verified, remaining, _ := Verify();
      if !verified || remaining {
        return false;
      }
      var happens, told := Attempt();
      if happens {
        Become(s.(filter := NoFilter));
      }
      return told;
    }

    method CleanupNetwork(phase: Phase) returns (ok: bool)
      requires Valid() && !s.torn && (Rank(phase) >= Rank(Cleaned) ==> Rank(s.phase) >= Rank(Cleaned))
      modifies this`s, this`history
      ensures Valid() && old(history) <= history && s == old(s).(net := s.net, filter := s.filter)
      ensures ok ==> Vacated(s)
      ensures healthy && old(Own(s)) && old(s.domain) == NoDomain ==> ok
      ensures old(Own(s)) ==> Own(s)
    {
      var verified, netExists, filterExists := Verify();
      if !verified {
        return false;
      }
      if phase == Cleaned || phase == Released {
        var answered := Probe();
        return !netExists && !filterExists && answered;
      }
      if (netExists || filterExists) && !CreationRecorded(s) {
        return false;
      }
      if netExists {
        ok := RemoveNetwork();
        if !ok {
          return false;
        }
      }
      if filterExists {
        ok := RemoveFilter();
        if !ok {
          return false;
        }
      }
      verified, netExists, filterExists := Verify();
      var absent := Probe();
      return verified && !netExists && !filterExists && absent;
    }

    /** Removes one kind of file, if it is there. */
    method Remove(without: Snapshot) returns (ok: bool)
      requires Valid() && Vacated(s) && Safe(without) && Effect(s, without)
      modifies this`s, this`history
      ensures Valid() && old(history) <= history && (s == old(s) || s == without)
      ensures ok ==> s == without
      ensures healthy ==> ok
    {
      if s == without {
        return true;
      }
      var happens, told := Attempt();
      if happens {
        Become(without);
      }
      return told;
    }

    /** Removes the files one kind after the other; the network definition goes before the filter definition. */
    method RemoveArtifacts() returns (ok: bool)
      requires Valid() && !s.torn && Vacated(s) && Rank(s.phase) < Rank(Cleaned)
      modifies this`s, this`history
      ensures Valid() && old(history) <= history && Vacated(s) && s.phase == old(s.phase) && !s.torn
      ensures ok ==> Empty(s)
      ensures healthy ==> ok
      ensures old(Own(s)) ==> Own(s)
    {
      ok := Remove(s.(disks := false));
      if !ok {
        return false;
      }
      ok := Remove(s.(networkXml := Missing));
      if !ok {
        return false;
      }
      ok := Remove(s.(filterXml := Missing));
    }

    /** A journal step, whose marker is written as `w` says; a journal that cannot be read makes none. */
    method Advance(phase: Phase, w: Write) returns (ok: bool)
      requires Valid() && (phase == Cleaned && Rank(s.phase) < Rank(Cleaned) ==> Empty(s))
      modifies this`s, this`history
      ensures Valid() && old(history) <= history
      ensures s == if old(!s.torn && NextPhase(s.phase, phase)) then Marked(old(s), phase, w) else old(s)
      ensures ok <==> old(!s.torn && (s.phase == phase || (NextPhase(s.phase, phase) && w.Complete?)))
      ensures ok ==> s.phase == phase && !s.torn
      ensures old(s.torn) ==> history == old(history)
    {
      if s.torn {
        return false;
      }
      if s.phase == phase {
        return true;
      }
      if !NextPhase(s.phase, phase) {
        return false;
      }
      Become(Marked(s, phase, w));
      return w.Complete?;
    }

    /** Records that the reservation was given back. */
    method RecordRelease(w: Write) returns (ok: bool)
      requires Valid()
      modifies this`s, this`history
      ensures Valid() && old(history) <= history
      ensures ok <==> old(!s.torn && (s.phase == Released || (s.phase == Cleaned && w.Complete?)))
      ensures ok ==> s.phase == Released && Empty(s) && !s.torn
    {
      ok := Advance(Released, w);
    }

    /** Makes sure that the run has no domain; one that comes back after the cleanup is not touched. */
    method RemoveDomain(cleaned: bool) returns (ok: bool)
      requires Valid() && !s.torn && (cleaned <==> Rank(s.phase) >= Rank(Cleaned))
      modifies this`s, this`history
      ensures Valid() && old(history) <= history && s == old(s).(domain := s.domain)
      ensures ok ==> s.domain == NoDomain
      ensures healthy && old(s.domain != OtherDomain) ==> ok
      ensures old(s.domain) == OtherDomain <==> s.domain == OtherDomain
    {
      var answered := Probe();
      if !answered {
        return false;
      }
      if s.domain != NoDomain {
        if cleaned {
          return false;
        }
        ok := StopDomain();
        if !ok {
          return false;
        }
      }
      answered := Probe();
      return answered && s.domain == NoDomain;
    }

    /** Domain, network and filter go before the files; a run that is cleaned is only looked at. */
    method RemoveRun(phase: Phase) returns (ok: bool)
      requires Valid() && !s.torn && (Rank(phase) >= Rank(Cleaned) <==> Rank(s.phase) >= Rank(Cleaned))
      modifies this`s, this`history
      ensures Valid() && old(history) <= history && s.phase == old(s.phase) && !s.torn
      ensures ok ==> Empty(s)
      ensures healthy && old(Own(s)) ==> ok
      ensures old(Own(s)) ==> Own(s)
    {
      ok := RemoveDomain(Rank(phase) >= Rank(Cleaned));
      if !ok {
        return false;
      }
      ok := CleanupNetwork(phase);
      if !ok {
        return false;
      }
      if Rank(phase) >= Rank(Cleaned) {
        return Empty(s);
      }
      ok := RemoveArtifacts();
    }

    /** Stops the domain, removes network, filter and files, and records it. It can be repeated after any crash, and does
        its work unless a marker of the run was cut short; its own markers are written as `pending` and `cleaned` say. */
    method Cleanup(pending: Write, cleaned: Write) returns (ok: bool)
      requires Valid()
      modifies this`s, this`history
      ensures Valid() && old(history) <= history
      ensures ok ==> Empty(s) && s.phase in {Cleaned, Released} && !s.torn
      ensures ok ==> s.filter == NoFilter && s.net == NoNet && s.domain == NoDomain
                     && s.filterXml == Missing && s.networkXml == Missing && !s.disks
      ensures old(s.torn) ==> !ok && history == old(history)
      ensures healthy && pending.Complete? && cleaned.Complete? && old(Own(s)) ==> (ok <==> old(!s.torn))
      ensures pending.Complete? && cleaned.Complete? ==> s.torn == old(s.torn)
      ensures old(Own(s)) ==> Own(s)
    {
      if s.torn {
        return false;
      }
      var phase := s.phase;
      if Rank(phase) < Rank(Cleaned) {
        ok := Advance(CleanupPending, pending);
        if !ok {
          return false;
        }
      }
      ok := RemoveRun(phase);
      if !ok || Rank(phase) >= Rank(Cleaned) {
        return;
      }
      ok := Advance(Cleaned, cleaned);
    }
  }

  /** Whatever the host answers and wherever the Worker stops, a later cleanup on a host that works removes everything the
      run made, exactly unless a marker of the run was ever cut short; then nothing more is removed. */
  method CrashAndRecover(host: Host, attempts: nat) returns (ok: bool)
    requires host.Valid() && host.history == [host.s] && host.s.phase == Prepared && !host.s.torn && !host.healthy && Own(host.s)
    modifies host
    ensures host.Valid() && old(host.history) <= host.history
    ensures ok <==> forall i :: 0 <= i < |host.history| ==> !host.history[i].torn
    ensures ok ==> host.s.filter == NoFilter && host.s.net == NoNet && host.s.domain == NoDomain
                   && host.s.filterXml == Missing && host.s.networkXml == Missing && !host.s.disks
  {
    var w: Write := *;
    var executed := host.Execute(w);
    for i := 0 to attempts
      invariant host.Valid() && Own(host.s) && old(host.history) <= host.history
    {
      var pending: Write, cleaned: Write := *, *;
      var done := host.Cleanup(pending, cleaned);
    }
    host.healthy := true;
    ok := host.Cleanup(Complete, Complete);
    forall i | 0 <= i < |host.history|
      ensures host.history[i].torn ==> host.s.torn
    {
      if host.history[i].torn {
        TornIsForever(host.history, i, |host.history| - 1);
      }
    }
  }

  /** On a host on which everything works but the write of one marker, the run and its network stay for good, however often
      it is cleaned up. */
  method TornMarkerStrands(attempts: nat) returns (host: Host)
    ensures fresh(host) && host.Valid() && host.healthy && host.s == STRANDED
  {
    host := new Host(NoFilter, NoNet, NoDomain, true);
    var executed := host.Execute(CutShort);
    for i := 0 to attempts
      invariant fresh(host) && host.Valid() && host.healthy && host.s == STRANDED
    {
      var cleaned := host.Cleanup(Complete, Complete);
    }
  }
}
