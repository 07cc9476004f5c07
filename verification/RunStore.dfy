/**
 The store of all ownership records of one Worker (run_store.go): creation of runs with and
 without a private network, advancing their journals, and what holds over every history of both,
 including interrupted writes.
 */
module RunStore {
  import opened Ipv4
  import opened GuestEgress
  import opened NetworkIdentity
  import opened Journal
  import opened Wrappers

  type Dirs = map<RunId, Dir>

  datatype Refusal = Unlistable | LegacyNetworking | BadPolicy | NoNetwork | NotStored

  /** The network a directory still holds: recorded, and not known to be released. */
  ghost function Holding(env: Env, id: RunId, dir: Dir): Option<Network> {
    var record := RecordOf(env, id, dir);
    var run := LoadDir(env, id, dir);
    if record.None? || (run.Some? && run.value.phase == Released) then None else record.value.network
  }

  ghost predicate HeldOk(env: Env, pool: Prefix, id: RunId, network: Network) {
    && PoolOk(pool) && NetworkValid(env.host, network, id) && InPool(network.subnet, pool)
    && (network.control.Some? ==> !Contains(pool, network.control.value.ip))
  }

  ghost predicate Apart(a: Network, b: Network) {
    !Collide(a, b) && !Overlaps(a.subnet, b.subnet)
  }

  /** Held networks are valid, inside the pool, and share neither identity nor address. */
  ghost predicate Inv(env: Env, pool: Prefix, dirs: Dirs) {
    && (forall id :: id in dirs && Holding(env, id, dirs[id]).Some? ==> HeldOk(env, pool, id, Holding(env, id, dirs[id]).value))
    && (forall a, b :: a in dirs && b in dirs && a != b && Holding(env, a, dirs[a]).Some? && Holding(env, b, dirs[b]).Some? ==>
          Apart(Holding(env, a, dirs[a]).value, Holding(env, b, dirs[b]).value))
  }

  /* ---------- steps of the store ---------- */

  /** A new directory may hold a network only if that is apart from everything held. */
  ghost predicate Admits(env: Env, pool: Prefix, dirs: Dirs, id: RunId, dir: Dir) {
    && (Holding(env, id, dir).Some? ==>
          && HeldOk(env, pool, id, Holding(env, id, dir).value)
          && forall other :: other in dirs && Holding(env, other, dirs[other]).Some? ==>
               Apart(Holding(env, other, dirs[other]).value, Holding(env, id, dir).value))
    && (LoadDir(env, id, dir).Some? ==> LoadDir(env, id, dir).value.phase == Prepared)
  }

  ghost predicate CreateStep(env: Env, pool: Prefix, before: Dirs, after: Dirs, id: RunId, dir: Dir) {
    id !in before && after == before[id := dir] && Admits(env, pool, before, id, dir)
  }

  ghost predicate AdvanceStep(env: Env, before: Dirs, after: Dirs, id: RunId, phase: Phase, now: int, w: Write) {
    id in before && after == before[id := AdvanceDir(env, id, before[id], phase, now, w).0]
  }

  ghost predicate Step(env: Env, pool: Prefix, before: Dirs, after: Dirs) {
    || after == before
    || (exists id, dir :: CreateStep(env, pool, before, after, id, dir))
    || (exists id, phase, now, w :: AdvanceStep(env, before, after, id, phase, now, w))
  }

  lemma ApartIsSymmetric(a: Network, b: Network)
    ensures Apart(a, b) <==> Apart(b, a)
  {
  }

  lemma WriteKeepsRecord(env: Env, id: RunId, dir: Dir, phase: Phase, line: string, w: Write)
    requires phase != Prepared
    ensures RecordOf(env, id, WriteFile(dir, FileName(phase), line, w).0) == RecordOf(env, id, dir)
  {
  }

  lemma AdvanceKeepsRecord(env: Env, id: RunId, dir: Dir, phase: Phase, now: int, w: Write)
    ensures RecordOf(env, id, AdvanceDir(env, id, dir, phase, now, w).0) == RecordOf(env, id, dir)
  {
    var loaded := LoadDir(env, id, dir);
    if loaded.Some? && loaded.value.phase != phase && NextPhase(loaded.value.phase, phase) {
      WriteKeepsRecord(env, id, dir, phase, Line(env.markers, MarkerFor(loaded.value, id, phase, now)), w);
    }
  }

  /** No step gives a directory a network it did not hold. */
  lemma AdvanceHoldsNoMore(env: Env, id: RunId, dir: Dir, phase: Phase, now: int, w: Write)
    requires EnvOk(env)
    ensures var after := AdvanceDir(env, id, dir, phase, now, w).0;
      Holding(env, id, after).Some? ==> Holding(env, id, after) == Holding(env, id, dir)
  {
    AdvanceKeepsRecord(env, id, dir, phase, now, w);
    if LoadDir(env, id, dir).Some? {
      StepIsCrashSafe(env, id, dir, phase, now, w);
    }
  }

  lemma StepKeepsInv(env: Env, pool: Prefix, before: Dirs, after: Dirs)
    requires EnvOk(env) && Inv(env, pool, before) && Step(env, pool, before, after)
    ensures Inv(env, pool, after)
  {
    if after != before {
      if id, dir :| CreateStep(env, pool, before, after, id, dir) {
        forall a, b | a in after && b in after && a != b && Holding(env, a, after[a]).Some? && Holding(env, b, after[b]).Some?
          ensures Apart(Holding(env, a, after[a]).value, Holding(env, b, after[b]).value)
        {
          if a == id {
            ApartIsSymmetric(Holding(env, a, after[a]).value, Holding(env, b, after[b]).value);
          }
        }
      } else {
        var id, phase, now, w :| AdvanceStep(env, before, after, id, phase, now, w);
        AdvanceHoldsNoMore(env, id, before[id], phase, now, w);
        forall a | a in after && Holding(env, a, after[a]).Some? ensures Holding(env, a, before[a]) == Holding(env, a, after[a]) {
          assert a != id ==> after[a] == before[a];
        }
      }
    }
  }

  lemma AdvanceStepKeeps(env: Env, pool: Prefix, dirs: Dirs, id: RunId, phase: Phase, now: int, w: Write)
    requires EnvOk(env) && Inv(env, pool, dirs) && id in dirs
    ensures var after := dirs[id := AdvanceDir(env, id, dirs[id], phase, now, w).0];
      Step(env, pool, dirs, after) && Inv(env, pool, after)
  {
    var after := dirs[id := AdvanceDir(env, id, dirs[id], phase, now, w).0];
    assert AdvanceStep(env, dirs, after, id, phase, now, w);
    StepKeepsInv(env, pool, dirs, after);
  }

  /* ---------- histories ---------- */

  /** Every state of the store, from the empty one on. */
  ghost predicate History(env: Env, pool: Prefix, states: seq<Dirs>) {
    && states != [] && states[0] == map[]
    && forall i :: 0 <= i < |states| - 1 ==> Step(env, pool, states[i], states[i + 1])
  }

  /** In every state of every history the held networks are apart from each other. */
  lemma {:induction false} HistoryKeepsNetworksApart(env: Env, pool: Prefix, states: seq<Dirs>, i: nat)
    requires EnvOk(env) && History(env, pool, states) && i < |states|
    ensures Inv(env, pool, states[i])
  {
    if i > 0 {
      HistoryKeepsNetworksApart(env, pool, states, i - 1);
      StepKeepsInv(env, pool, states[i - 1], states[i]);
    }
  }

  /** No address is shared by two held networks, and none of them contains a recorded control address. */
  lemma HeldAddressesAreDisjoint(env: Env, pool: Prefix, dirs: Dirs, a: RunId, b: RunId, address: nat)
    requires Inv(env, pool, dirs) && a in dirs && b in dirs
    requires Holding(env, a, dirs[a]).Some? && Holding(env, b, dirs[b]).Some?
    requires Contains(Holding(env, a, dirs[a]).value.subnet, address)
    ensures a != b ==> !Contains(Holding(env, b, dirs[b]).value.subnet, address)
    ensures Private(address)
    ensures var control := Holding(env, b, dirs[b]).value.control; control.Some? ==> control.value.ip != address
  {
    var n, m := Holding(env, a, dirs[a]).value, Holding(env, b, dirs[b]).value;
    HeldAddress(env, pool, a, n, address);
    ValidFixesIdentity(env.host, m, b);
    OverlapsMeansShared(n.subnet, m.subnet);
  }

  /** An address of a held network is a private address of the pool. */
  lemma HeldAddress(env: Env, pool: Prefix, id: RunId, network: Network, address: nat)
    requires HeldOk(env, pool, id, network) && Contains(network.subnet, address)
    ensures Valid(network.subnet) && Private(address) && Contains(pool, address)
  {
    ValidFixesIdentity(env.host, network, id);
    PrivateBlock(network.subnet, address);
    FinerIsInside(pool, network.subnet, address);
  }

  ghost predicate NotBefore(env: Env, id: RunId, earlier: Dir, later: Dir) {
    var before, after := LoadDir(env, id, earlier), LoadDir(env, id, later);
    && RecordOf(env, id, later) == RecordOf(env, id, earlier)
    && (after.Some? ==>
          && before.Some? && before.value.record == after.value.record
          && Rank(before.value.phase) <= Rank(after.value.phase) && before.value.at <= after.value.at)
  }

  /** A step on one directory keeps its record and never moves its journal back. */
  lemma AdvanceMovesForward(env: Env, id: RunId, dir: Dir, phase: Phase, now: int, w: Write)
    requires EnvOk(env)
    ensures NotBefore(env, id, dir, AdvanceDir(env, id, dir, phase, now, w).0)
  {
    AdvanceKeepsRecord(env, id, dir, phase, now, w);
    if LoadDir(env, id, dir).Some? {
      StepIsCrashSafe(env, id, dir, phase, now, w);
    }
  }

  lemma StepMovesForward(env: Env, pool: Prefix, before: Dirs, after: Dirs, id: RunId)
    requires EnvOk(env) && Step(env, pool, before, after) && id in before
    ensures id in after && NotBefore(env, id, before[id], after[id])
  {
    if after != before {
      if created, dir :| CreateStep(env, pool, before, after, created, dir) {
        assert after[id] == before[id];
      } else {
        var other, phase, now, w :| AdvanceStep(env, before, after, other, phase, now, w);
        if other == id {
          AdvanceMovesForward(env, id, before[id], phase, now, w);
        } else {
          assert after[id] == before[id];
        }
      }
    }
  }

  /** A directory is never removed or reused: its record stays, its journal only moves forward, and what cannot be loaded never can be again. */
  lemma {:induction false} HistoryMovesForward(env: Env, pool: Prefix, states: seq<Dirs>, i: nat, j: nat, id: RunId)
    requires EnvOk(env) && History(env, pool, states) && i <= j < |states| && id in states[i]
    ensures id in states[j] && NotBefore(env, id, states[i][id], states[j][id])
    decreases j
  {
    if i < j {
      HistoryMovesForward(env, pool, states, i, j - 1, id);
      StepMovesForward(env, pool, states[j - 1], states[j], id);
    }
  }

  /* ---------- creation ---------- */

  /** The directory that creating a run leaves behind. */
  function NewDir(env: Env, record: Record, w: Write): Dir {
    WriteFile(map[], FileName(Prepared), Line(env.records, record), w).0
  }

  lemma NewDirLoads(env: Env, id: RunId, record: Record, w: Write)
    requires EnvOk(env) && env.host.isUuid(id)
    ensures var dir := NewDir(env, record, w);
      && (RecordOf(env, id, dir).Some? ==> RecordOf(env, id, dir).value == record)
      && (LoadDir(env, id, dir).Some? ==> LoadDir(env, id, dir).value == OwnedRun(record, Prepared, record.createdAt))
      && (w.Complete? && |Line(env.records, record)| <= MAX_RECORD && RecordOk(env, id, record) ==>
            LoadDir(env, id, dir).Some?)
      && (w.Interrupted? && w.kept.Some? && w.kept.value < |Line(env.records, record)| ==> LoadDir(env, id, dir).None?)
  {
    var dir := NewDir(env, record, w);
    var line := Line(env.records, record);
    if FileName(Prepared) in dir {
      if dir[FileName(Prepared)] == line {
        LineIsRead(env.records, dir, FileName(Prepared), record);
      } else {
        TornIsBroken(env.records, dir, FileName(Prepared), record, w.kept.value);
      }
    }
    LoadsExactlyLegalPaths(env, id, dir);
    if RecordOf(env, id, dir).Some? {
      TimeStands(env, dir, record, Prepared, Released);
      assert LegalPath(env, id, dir, record) by {
        forall phase ensures TimeAt(env, dir, record, Before(phase)) <= TimeAt(env, dir, record, phase) {
          TimeStands(env, dir, record, Prepared, phase);
          TimeStands(env, dir, record, Prepared, Before(phase));
        }
      }
    }
  }

  /* ---------- the store object ---------- */

  /** The runs of the listed identifiers, each listed once, and none left out. */
  ghost predicate Listing(env: Env, dirs: Dirs, ids: seq<RunId>, runs: seq<OwnedRun>) {
    && |runs| == |ids|
    && (forall i :: 0 <= i < |ids| ==> ids[i] in dirs && LoadDir(env, ids[i], dirs[ids[i]]) == Some(runs[i]))
    && (forall i, j :: 0 <= i < j < |ids| ==> ids[i] != ids[j])
    && (forall id :: id in dirs ==> id in ids)
  }

  /** `occupied` are the networks of the unreleased runs among the first `n` listed ones. */
  ghost predicate Occupies(env: Env, dirs: Dirs, ids: seq<RunId>, n: nat, occupied: seq<Network>) {
    && n <= |ids| && (forall i :: 0 <= i < |ids| ==> ids[i] in dirs)
    && |occupied| <= n
    && (forall k :: 0 <= k < |occupied| ==> exists i :: 0 <= i < n && Holding(env, ids[i], dirs[ids[i]]) == Some(occupied[k]))
    && (forall i :: 0 <= i < n && Holding(env, ids[i], dirs[ids[i]]).Some? ==> Holding(env, ids[i], dirs[ids[i]]).value in occupied)
  }

  lemma CompatibleWithNext(env: Env, pool: Prefix, dirs: Dirs, ids: seq<RunId>, n: nat, occupied: seq<Network>, network: Network)
    requires Inv(env, pool, dirs) && n < |ids| && forall i :: 0 <= i < |ids| ==> ids[i] in dirs
    requires forall i, j :: 0 <= i < j < |ids| ==> ids[i] != ids[j]
    requires Occupies(env, dirs, ids, n, occupied) && Compatible(env.host, occupied)
    requires Holding(env, ids[n], dirs[ids[n]]) == Some(network)
    ensures Compatible(env.host, occupied + [network])
  {
    ValidFixesIdentity(env.host, network, ids[n]);
    forall k | 0 <= k < |occupied| ensures Apart(occupied[k], network) {
      var i :| 0 <= i < n && Holding(env, ids[i], dirs[ids[i]]) == Some(occupied[k]);
      assert ids[i] != ids[n];
    }
    CompatibleGrows(env.host, occupied, network);
  }

  lemma OccupiesNextNetwork(env: Env, dirs: Dirs, ids: seq<RunId>, n: nat, occupied: seq<Network>, network: Network)
    requires n < |ids| && forall i :: 0 <= i < |ids| ==> ids[i] in dirs
    requires Occupies(env, dirs, ids, n, occupied)
    requires Holding(env, ids[n], dirs[ids[n]]) == Some(network)
    ensures Occupies(env, dirs, ids, n + 1, occupied + [network])
  {
    var longer := occupied + [network];
    forall k | 0 <= k < |longer| ensures exists i :: 0 <= i < n + 1 && Holding(env, ids[i], dirs[ids[i]]) == Some(longer[k]) {
      if k < |occupied| {
        var i :| 0 <= i < n && Holding(env, ids[i], dirs[ids[i]]) == Some(occupied[k]);
        assert longer[k] == occupied[k];
      }
    }
  }

  lemma ListedHolds(env: Env, id: RunId, dir: Dir, run: OwnedRun)
    requires LoadDir(env, id, dir) == Some(run)
    ensures Holding(env, id, dir) == if run.phase == Released then None else run.record.network
  {
    LoadsExactlyLegalPaths(env, id, dir);
  }

  /** Nothing is held by the store that the occupied networks do not show. */
  lemma OccupiedIsHeld(env: Env, dirs: Dirs, ids: seq<RunId>, runs: seq<OwnedRun>, occupied: seq<Network>, id: RunId)
    requires Listing(env, dirs, ids, runs) && Occupies(env, dirs, ids, |ids|, occupied)
    requires id in dirs && Holding(env, id, dirs[id]).Some?
    ensures Holding(env, id, dirs[id]).value in occupied
  {
    var i :| 0 <= i < |ids| && ids[i] == id;
  }

  /** Why no network could be given although the store is in order. */
  ghost predicate Exhausted(env: Env, pool: Prefix, dirs: Dirs, leaseId: RunId, excluded: seq<Prefix>) {
    || !PoolOk(pool) || !env.host.isUuid(leaseId) || |excluded| > 4096
    || (exists i :: 0 <= i < |excluded| && !ExcludedOk(excluded[i]))
    || (exists id :: id in dirs && Holding(env, id, dirs[id]).Some? && !Fresh(env.host, leaseId, [Holding(env, id, dirs[id]).value]))
    || (forall subnet :: InPool(subnet, pool) ==> Taken(env, dirs, excluded, subnet))
  }

  ghost predicate Taken(env: Env, dirs: Dirs, excluded: seq<Prefix>, subnet: Prefix) {
    || (exists id :: id in dirs && Holding(env, id, dirs[id]).Some? && Overlaps(Holding(env, id, dirs[id]).value.subnet, subnet))
    || (exists i :: 0 <= i < |excluded| && Overlaps(excluded[i], subnet))
  }

  lemma OccupiesSkips(env: Env, dirs: Dirs, ids: seq<RunId>, n: nat, occupied: seq<Network>)
    requires n < |ids| && forall i :: 0 <= i < |ids| ==> ids[i] in dirs
    requires Occupies(env, dirs, ids, n, occupied)
    requires Holding(env, ids[n], dirs[ids[n]]).None?
    ensures Occupies(env, dirs, ids, n + 1, occupied)
  {
    forall k | 0 <= k < |occupied| ensures exists i :: 0 <= i < n + 1 && Holding(env, ids[i], dirs[ids[i]]) == Some(occupied[k]) {
      var i :| 0 <= i < n && Holding(env, ids[i], dirs[ids[i]]) == Some(occupied[k]);
    }
  }

  ghost predicate Legacy(run: OwnedRun) {
    run.phase != Released && run.record.network.None?
  }

  function HeldBy(run: OwnedRun): seq<Network> {
    if run.phase != Released && run.record.network.Some? then [run.record.network.value] else []
  }

  /** The networks of the unreleased runs, in order. */
  function NetworksOf(runs: seq<OwnedRun>): seq<Network> {
    if runs == [] then [] else NetworksOf(runs[..|runs| - 1]) + HeldBy(runs[|runs| - 1])
  }

  /** The networks of the unreleased runs; a legacy run without one stops the allocation. */
  method Unreleased(runs: seq<OwnedRun>) returns (occupied: Option<seq<Network>>)
    ensures occupied.None? <==> exists i :: 0 <= i < |runs| && Legacy(runs[i])
    ensures occupied.Some? ==> occupied.value == NetworksOf(runs)
  {
    var found: seq<Network> := [];
    var i := 0;
    while i < |runs|
      invariant i <= |runs|
      invariant forall k :: 0 <= k < i ==> !Legacy(runs[k])
      invariant found == NetworksOf(runs[..i])
    {
      assert runs[..i + 1][..i] == runs[..i];
      if runs[i].phase != Released {
        if runs[i].record.network.None? {
          assert Legacy(runs[i]);
          return None;
        }
        found := found + [runs[i].record.network.value];
      }
      i := i + 1;
    }
    assert runs[..i] == runs;
    occupied := Some(found);
  }

  /** One more listed run adds the network it holds, if it holds one. */
  lemma ListedNext(env: Env, pool: Prefix, dirs: Dirs, ids: seq<RunId>, runs: seq<OwnedRun>, n: nat, occupied: seq<Network>)
    requires Inv(env, pool, dirs) && Listing(env, dirs, ids, runs) && n < |ids|
    requires Occupies(env, dirs, ids, n, occupied) && Compatible(env.host, occupied)
    ensures var longer := occupied + HeldBy(runs[n]);
      Occupies(env, dirs, ids, n + 1, longer) && Compatible(env.host, longer)
  {
    var run := runs[n];
    ListedHolds(env, ids[n], dirs[ids[n]], run);
    if run.phase != Released && run.record.network.Some? {
      CompatibleWithNext(env, pool, dirs, ids, n, occupied, run.record.network.value);
      OccupiesNextNetwork(env, dirs, ids, n, occupied, run.record.network.value);
    } else {
      OccupiesSkips(env, dirs, ids, n, occupied);
      assert occupied + [] == occupied;
    }
  }

  lemma NetworksOfNext(runs: seq<OwnedRun>, n: nat)
    requires n < |runs|
    ensures NetworksOf(runs[..n + 1]) == NetworksOf(runs[..n]) + HeldBy(runs[n])
  {
    assert runs[..n + 1][..n] == runs[..n];
  }

  /** In a store that this code wrote the networks of the unreleased runs always pass the allocator's checks. */
  lemma {:induction false} ListedNetworks(env: Env, pool: Prefix, dirs: Dirs, ids: seq<RunId>, runs: seq<OwnedRun>, n: nat)
    requires Inv(env, pool, dirs) && Listing(env, dirs, ids, runs) && n <= |ids|
    ensures Occupies(env, dirs, ids, n, NetworksOf(runs[..n])) && Compatible(env.host, NetworksOf(runs[..n]))
  {
    if n > 0 {
      ListedNetworks(env, pool, dirs, ids, runs, n - 1);
      NetworksOfNext(runs, n - 1);
      ListedNext(env, pool, dirs, ids, runs, n - 1, NetworksOf(runs[..n - 1]));
    }
  }

  class Store {
    const env: Env
    const pool: Prefix
    var dirs: Dirs

    ghost predicate Valid()
      reads this
    {
      EnvOk(env) && Inv(env, pool, dirs)
    }

    constructor (env: Env, pool: Prefix)
      requires EnvOk(env)
      ensures Valid() && this.env == env && this.pool == pool && dirs == map[]
    {
      this.env, this.pool, this.dirs := env, pool, map[];
    }

    /** List: one unreadable entry, or too many beside the lock file, and nothing is listed. */
    method List() returns (ids: seq<RunId>, runs: Option<seq<OwnedRun>>)
      requires Valid()
      ensures runs.Some? <==> |dirs| + 1 <= 4096 && forall id :: id in dirs ==> LoadDir(env, id, dirs[id]).Some?
      ensures runs.Some? ==> Listing(env, dirs, ids, runs.value) && |runs.value| == |dirs|
    {
      ids := [];
      var found: seq<OwnedRun> := [];
      if |dirs| + 1 > 4096 {
        return ids, None;
      }
      var remaining := dirs.Keys;
      while remaining != {}
        invariant remaining <= dirs.Keys && |found| == |ids| && |ids| + |remaining| == |dirs.Keys|
        invariant forall i :: 0 <= i < |ids| ==> ids[i] in dirs && ids[i] !in remaining && LoadDir(env, ids[i], dirs[ids[i]]) == Some(found[i])
        invariant forall i, j :: 0 <= i < j < |ids| ==> ids[i] != ids[j]
        invariant forall id :: id in dirs && id !in remaining ==> id in ids
        decreases remaining
      {
        var id :| id in remaining;
        var run := Load(env, id, dirs[id]);
        if run.None? {
          return ids, None;
        }
        ids, found := ids + [id], found + [run.value];
        remaining := remaining - {id};
      }
      runs := Some(found);
    }

    /** create: an existing directory is never reused, and what an interrupted write left stays. */
    method Persist(workId: string, leaseId: RunId, resources: Resources, network: Option<Network>,
                  now: int, mkdir: bool, w: Write, synced: bool) returns (r: Result<OwnedRun, Refusal>)
      requires Valid()
      requires network.Some? ==> HeldOk(env, pool, leaseId, network.value)
      requires network.Some? ==> forall id :: id in dirs && Holding(env, id, dirs[id]).Some? ==>
        Apart(Holding(env, id, dirs[id]).value, network.value)
      modifies this
      ensures Valid() && Step(env, pool, old(dirs), dirs)
      ensures dirs == old(dirs) || (leaseId !in old(dirs) && leaseId in dirs && dirs - {leaseId} == old(dirs))
      ensures r.Ok? ==> leaseId !in old(dirs) && leaseId in dirs && r.value.phase == Prepared && r.value.record.network == network
      ensures r.Ok? ==> r.value.record.workId == workId && r.value.record.resources == resources
      ensures r.Ok? && now != 0 ==> LoadDir(env, leaseId, dirs[leaseId]) == Some(r.value)
      ensures r.Err? ==> r.error == NotStored
    {
      if !env.isWork(workId) || !env.host.isUuid(leaseId) || resources.cpu < 1 || resources.memoryMb < 1 || resources.diskGb < 1 {
        return Err(NotStored);
      }
      if leaseId in dirs || !mkdir {
        return Err(NotStored);
      }
      var schema := if network.None? then 2 else network.value.version + 2;
      var record := Record(schema, leaseId, workId, "kelpie-" + leaseId, resources, now, network);
      var (dir, written) := WriteFile(map[], FileName(Prepared), Line(env.records, record), w);
      NewDirLoads(env, leaseId, record, w);
      ghost var before := dirs;
      dirs := dirs[leaseId := dir];
      assert CreateStep(env, pool, before, dirs, leaseId, dir);
      StepKeepsInv(env, pool, before, dirs);
      assert dirs - {leaseId} == before;
      if !written || !synced {
        return Err(NotStored);
      }
      r := Ok(OwnedRun(record, Prepared, record.createdAt));
    }

    /** Create: a run without a network of its own. */
    method Create(workId: string, leaseId: RunId, resources: Resources, now: int, mkdir: bool, w: Write, synced: bool)
      returns (r: Result<OwnedRun, Refusal>)
      requires Valid()
      modifies this
      ensures Valid() && Step(env, pool, old(dirs), dirs)
      ensures r.Ok? ==> leaseId !in old(dirs) && leaseId in dirs && r.value.record.network.None?
    {
      r := Persist(workId, leaseId, resources, None, now, mkdir, w, synced);
    }

    /** The networks of the unreleased runs, as the allocator must avoid them. */
    method Occupied() returns (r: Result<seq<Network>, Refusal>, ghost ids: seq<RunId>, ghost runs: seq<OwnedRun>)
      requires Valid()
      ensures r.Ok? ==> Listing(env, dirs, ids, runs) && r.value == NetworksOf(runs) && |runs| < 4095
                        && Occupies(env, dirs, ids, |ids|, r.value) && Compatible(env.host, r.value)
      ensures r.Err? ==> r.error == Unlistable || r.error == LegacyNetworking
      ensures r.Err? && r.error == Unlistable <==> |dirs| >= 4095 || exists id :: id in dirs && LoadDir(env, id, dirs[id]).None?
    {
      var listed, found := List();
      if found.None? || |found.value| >= 4095 {
        return Err(Unlistable), [], [];
      }
      ids, runs := listed, found.value;
      var occupied := Unreleased(found.value);
      ListedNetworks(env, pool, dirs, ids, runs, |ids|);
      assert runs[..|ids|] == runs;
      if occupied.None? {
        return Err(LegacyNetworking), ids, runs;
      }
      return Ok(occupied.value), ids, runs;
    }

    /** A network with its policy for a new run, apart from everything held. */
    method Choose(leaseId: RunId, excluded: seq<Prefix>, control: Option<Control>, internet: Option<Internet>)
      returns (r: Result<Network, Refusal>)
      requires Valid()
      requires control.Some? ==> ControlOk(control.value) && !Contains(pool, control.value.ip)
      requires internet.Some? ==> control.Some? && InternetOk(internet.value) && Single(control.value.ip) in internet.value.denied
      ensures r.Ok? ==> r.value.control == control && r.value.internet == internet && HeldOk(env, pool, leaseId, r.value)
      ensures r.Ok? ==> forall id :: id in dirs && Holding(env, id, dirs[id]).Some? ==> Apart(Holding(env, id, dirs[id]).value, r.value)
      ensures r.Ok? ==> forall i :: 0 <= i < |excluded| ==> !Overlaps(excluded[i], r.value.subnet)
      // A store that this code wrote is never the reason for refusing a network.
      ensures r.Err? && r.error == NoNetwork ==> Exhausted(env, pool, dirs, leaseId, excluded)
      ensures r.Err? ==> r.error == Unlistable || r.error == LegacyNetworking || r.error == NoNetwork
      ensures r.Err? && r.error == Unlistable <==> |dirs| >= 4095 || exists id :: id in dirs && LoadDir(env, id, dirs[id]).None?
    {
      var occupied, ids, runs := Occupied();
      if occupied.Err? {
        return Err(occupied.error);
      }
      var network := AllocateRunNetwork(env.host, leaseId, pool, occupied.value, excluded);
      if network.None? {
        RefusalIsExhaustion(env, pool, dirs, ids, runs, occupied.value, leaseId, excluded);
        return Err(NoNetwork);
      }
      var chosen := network.value;
      if control.Some? {
        chosen := chosen.(version := 2, control := control);
        if internet.Some? {
          chosen := chosen.(version := 3, internet := internet);
        }
        PolicyFits(env, pool, leaseId, network.value, control.value, internet);
        if !NetworkValid(env.host, chosen, leaseId) {
          return Err(BadPolicy);
        }
      }
      forall id | id in dirs && Holding(env, id, dirs[id]).Some? ensures Apart(Holding(env, id, dirs[id]).value, chosen) {
        OccupiedIsHeld(env, dirs, ids, runs, occupied.value, id);
        CompatibleGrows(env.host, occupied.value, network.value);
        ChosenStaysApart(env.host, occupied.value, network.value, chosen, Holding(env, id, dirs[id]).value);
      }
      return Ok(chosen);
    }

    /** createNetworked: allocation and durable creation under one lock. */
    method Reserve(workId: string, leaseId: RunId, resources: Resources, excluded: seq<Prefix>,
                   control: Option<Control>, internet: Option<Internet>,
                   now: int, mkdir: bool, w: Write, synced: bool) returns (r: Result<OwnedRun, Refusal>)
      requires Valid()
      requires control.Some? ==> ControlOk(control.value) && !Contains(pool, control.value.ip)
      requires internet.Some? ==> control.Some? && InternetOk(internet.value) && Single(control.value.ip) in internet.value.denied
      modifies this
      ensures Valid() && Step(env, pool, old(dirs), dirs)
      ensures r.Ok? ==> leaseId !in old(dirs) && leaseId in dirs && r.value.record.network.Some?
      ensures r.Ok? ==> r.value.record.network.value.control == control && r.value.record.network.value.internet == internet
      ensures r.Ok? ==> HeldOk(env, pool, leaseId, r.value.record.network.value)
      ensures r.Ok? ==> (forall id :: id in old(dirs) && Holding(env, id, old(dirs)[id]).Some? ==> Apart(Holding(env, id, old(dirs)[id]).value, r.value.record.network.value))
      ensures r.Ok? ==> forall i :: 0 <= i < |excluded| ==> !Overlaps(excluded[i], r.value.record.network.value.subnet)
      ensures r.Err? && r.error == NoNetwork ==> dirs == old(dirs) && Exhausted(env, pool, dirs, leaseId, excluded)
      ensures r.Err? && r.error == BadPolicy ==> false
      ensures r.Err? && r.error == Unlistable <==> |old(dirs)| >= 4095 || exists id :: id in old(dirs) && LoadDir(env, id, old(dirs)[id]).None?
    {
      var network := Choose(leaseId, excluded, control, internet);
      if network.Err? {
        return Err(network.error);
      }
      r := Persist(workId, leaseId, resources, Some(network.value), now, mkdir, w, synced);
    }

    /** CreateNetworked: a quarantined network, version 1. */
    method CreateNetworked(workId: string, leaseId: RunId, resources: Resources, excluded: seq<Prefix>,
                           now: int, mkdir: bool, w: Write, synced: bool) returns (r: Result<OwnedRun, Refusal>)
      requires Valid()
      modifies this
      ensures Valid() && Step(env, pool, old(dirs), dirs)
      ensures r.Ok? ==> r.value.record.network.Some? && r.value.record.network.value.version == 1
    {
      r := Reserve(workId, leaseId, resources, excluded, None, None, now, mkdir, w, synced);
      if r.Ok? { ValidFixesIdentity(env.host, r.value.record.network.value, leaseId); }
    }

    /** CreateControlled: the control endpoint may not lie anywhere in the pool. */
    method CreateControlled(workId: string, leaseId: RunId, resources: Resources, excluded: seq<Prefix>, control: Control,
                            now: int, mkdir: bool, w: Write, synced: bool) returns (r: Result<OwnedRun, Refusal>)
      requires Valid()
      modifies this
      ensures Valid() && Step(env, pool, old(dirs), dirs)
      ensures r.Ok? ==> r.value.record.network.Some? && r.value.record.network.value.version == 2
      ensures r.Ok? ==> r.value.record.network.value.control == Some(control) && !Contains(pool, control.ip)
      ensures r.Err? && r.error == BadPolicy <==> !ControlOk(control) || !PoolOk(pool) || Contains(pool, control.ip)
    {
      if !ControlOk(control) || !PoolOk(pool) || Contains(pool, control.ip) {
        return Err(BadPolicy);
      }
      r := Reserve(workId, leaseId, resources, excluded, Some(control), None, now, mkdir, w, synced);
    }

    /** CreateInternet: public egress with every current host address and the control address denied. */
    method CreateInternet(workId: string, leaseId: RunId, resources: Resources, complete: bool, excluded: seq<Prefix>, hosts: seq<nat>,
                          control: Control, internet: Internet,
                          now: int, mkdir: bool, w: Write, synced: bool) returns (r: Result<OwnedRun, Refusal>)
      requires Valid()
      modifies this
      ensures Valid() && Step(env, pool, old(dirs), dirs)
      ensures r.Ok? ==> complete && HostsOk(hosts, control)
      ensures r.Ok? ==> r.value.record.network.Some? && r.value.record.network.value.version == 3
      ensures r.Ok? ==> r.value.record.network.value.control == Some(control)
      ensures r.Ok? ==> r.value.record.network.value.internet == Some(Extended(internet, hosts, control))
    {
      if !ControlOk(control) || !PoolOk(pool) || Contains(pool, control.ip) {
        return Err(BadPolicy);
      }
      var extended := WithHost(internet, complete, hosts, control);
      if extended.None? {
        return Err(BadPolicy);
      }
      r := Reserve(workId, leaseId, resources, excluded, Some(control), extended, now, mkdir, w, synced);
    }

    /** Advance */
    method Advance(id: RunId, phase: Phase, now: int, w: Write) returns (r: Option<OwnedRun>)
      requires Valid()
      modifies this
      ensures Valid() && Step(env, pool, old(dirs), dirs)
      ensures id !in old(dirs) ==> dirs == old(dirs) && r.None?
      ensures id in old(dirs) ==>
        var (after, result) := AdvanceDir(env, id, old(dirs)[id], phase, now, w);
        dirs == old(dirs)[id := after] && r == result
    {
      if id !in dirs {
        return None;
      }
      AdvanceStepKeeps(env, pool, dirs, id, phase, now, w);
      ghost var target := AdvanceDir(env, id, dirs[id], phase, now, w).0;
      assert dirs == dirs[id := dirs[id]];
      var run := Load(env, id, dirs[id]);
      if run.None? {
        return None;
      }
      if run.value.phase == phase {
        return run;
      }
      if !NextPhase(run.value.phase, phase) {
        return None;
      }
      var at := if now < run.value.at then run.value.at else now;
      var (after, ok) := WriteFile(dirs[id], FileName(phase), Line(env.markers, Marker(id, phase, at)), w);
      assert after == target;
      dirs := dirs[id := after];
      if !ok {
        return None;
      }
      r := Load(env, id, after);
    }
  }

  /** The recorded policy keeps the allocated network valid. */
  lemma PolicyFits(env: Env, pool: Prefix, id: RunId, network: Network, control: Control, internet: Option<Internet>)
    requires NetworkAt(env.host, id, network.subnet) == Some(network) && InPool(network.subnet, pool) && PoolOk(pool)
    requires ControlOk(control) && !Contains(pool, control.ip)
    requires internet.Some? ==> InternetOk(internet.value) && Single(control.ip) in internet.value.denied
    ensures internet.None? ==> NetworkValid(env.host, network.(version := 2, control := Some(control)), id)
    ensures internet.Some? ==> NetworkValid(env.host, network.(version := 3, control := Some(control), internet := internet), id)
  {
    if Contains(network.subnet, control.ip) {
      FinerIsInside(pool, network.subnet, control.ip);
    }
  }

  /** The policy fields are no part of the identity. */
  lemma ChosenStaysApart(host: Host, occupied: seq<Network>, network: Network, chosen: Network, other: Network)
    requires Compatible(host, occupied + [network]) && other in occupied
    requires chosen.name == network.name && chosen.bridge == network.bridge && chosen.subnet == network.subnet
    requires chosen.guestMac == network.guestMac && chosen.gatewayMac == network.gatewayMac
    ensures Apart(other, chosen)
  {
    var i :| 0 <= i < |occupied| && occupied[i] == other;
    var longer := occupied + [network];
    assert longer[i] == other && longer[|occupied|] == network;
  }

  lemma RefusalIsExhaustion(env: Env, pool: Prefix, dirs: Dirs, ids: seq<RunId>, runs: seq<OwnedRun>,
                            occupied: seq<Network>, leaseId: RunId, excluded: seq<Prefix>)
    requires Listing(env, dirs, ids, runs) && Occupies(env, dirs, ids, |ids|, occupied) && Compatible(env.host, occupied)
    requires |ids| <= 4096
    requires Admissible(env.host, leaseId, pool, occupied, excluded) ==> forall subnet :: InPool(subnet, pool) ==> Blocked(subnet, occupied, excluded)
    ensures Exhausted(env, pool, dirs, leaseId, excluded)
  {
    if Admissible(env.host, leaseId, pool, occupied, excluded) {
      forall subnet | InPool(subnet, pool) ensures Taken(env, dirs, excluded, subnet) {
        BlockedIsTaken(env, dirs, ids, occupied, excluded, subnet);
      }
    } else if !Fresh(env.host, leaseId, occupied) {
      NotFreshSomewhere(env.host, leaseId, occupied);
      var k :| 0 <= k < |occupied| && !Fresh(env.host, leaseId, [occupied[k]]);
      var i :| 0 <= i < |ids| && Holding(env, ids[i], dirs[ids[i]]) == Some(occupied[k]);
    }
  }

  lemma NotFreshSomewhere(host: Host, id: RunId, occupied: seq<Network>)
    requires !Fresh(host, id, occupied)
    ensures exists k :: 0 <= k < |occupied| && !Fresh(host, id, [occupied[k]])
  {
    if forall k :: 0 <= k < |occupied| ==> Fresh(host, id, [occupied[k]]) {
      forall i | 0 <= i < |occupied|
        ensures "kelpie-net-" + id != occupied[i].name && host.bridge(id) != occupied[i].bridge
          && Mac(6, host.tail(id)) != occupied[i].guestMac && Mac(6, host.tail(id)) != occupied[i].gatewayMac
          && Mac(2, host.tail(id)) != occupied[i].guestMac && Mac(2, host.tail(id)) != occupied[i].gatewayMac
      {
        assert [occupied[i]][0] == occupied[i];
      }
    }
  }

  lemma BlockedIsTaken(env: Env, dirs: Dirs, ids: seq<RunId>, occupied: seq<Network>, excluded: seq<Prefix>, subnet: Prefix)
    requires forall i :: 0 <= i < |ids| ==> ids[i] in dirs
    requires Occupies(env, dirs, ids, |ids|, occupied) && Blocked(subnet, occupied, excluded)
    ensures Taken(env, dirs, excluded, subnet)
  {
    if k :| 0 <= k < |occupied| && Overlaps(occupied[k].subnet, subnet) {
      var i :| 0 <= i < |ids| && Holding(env, ids[i], dirs[ids[i]]) == Some(occupied[k]);
      assert Holding(env, ids[i], dirs[ids[i]]).Some?;
    }
  }
}
