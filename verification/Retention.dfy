/**
 Two-phase expiration of artifact files (artifact_retention.py, artifact_retention_files.py): the intent to
 delete is committed on every alias of a file before its bytes are touched, and its completion afterwards.

 Expirers run concurrently and may die at any point, also between the removal of a file and the commit
 that records it. A key belongs to one work. Works are seen through the guards that protect their files.
 */
module Retention {
  import opened Wrappers

  newtype Byte = x: int | 0 <= x < 256

  type Bytes = seq<Byte>

  datatype Key = Key(work: nat, name: string)

  const MAX_ALIASES := 10_000
  const MAX_ARTIFACT_BYTES := 10 * 1024 * 1024
  const DAY := 86400

  datatype Artifact = Artifact(key: Key, work: nat, size: nat, created: int,
                               expired: Option<int>, purged: Option<int>, days: Option<int>, sha256: Option<string>)

  /** What protects the files of a work: `final` means that it is completed or cancelled, `released` means that its lease was released, or that it never had one,
      and `fenced` that a worker it belongs to is quarantined or missing. */
  datatype Guard = Guard(final: bool, released: bool, updated: int, fenced: bool, delivered: bool,
                         preview: Option<int>, console: Option<int>)

  /** What a first transaction recorded for an alias. */
  datatype Intent = Intent(size: nat, expired: Option<int>, days: Option<int>, sha256: Option<string>)

  /** An expirer after its first transaction, and inside its second after the file was removed. */
  datatype Run =
    | Intended(identity: nat, days: int, now: int, intent: map<nat, Intent>)
    | Unlinked(identity: nat, now: int)

  datatype World = World(rows: seq<Artifact>, guards: seq<Guard>, files: map<Key, Bytes>, runs: map<nat, Run>)

  /* ---------- groups of aliases ---------- */

  function Aliases(rows: seq<Artifact>, key: Key): set<nat> {
    set i | 0 <= i < |rows| && rows[i].key == key
  }

  function IntentOf(row: Artifact): Intent {
    Intent(row.size, row.expired, row.days, row.sha256)
  }

  function Intents(rows: seq<Artifact>, key: Key): map<nat, Intent> {
    map i | i in Aliases(rows, key) :: IntentOf(rows[i])
  }

  predicate SameState(x: Artifact, y: Artifact) {
    x.expired == y.expired && x.purged == y.purged && x.days == y.days && x.sha256 == y.sha256 && x.size == y.size
  }

  /** The work no longer changes, and its lease is released for good. */
  predicate Settled(guard: Guard) {
    guard.final && guard.released
  }

  predicate Passed(until: Option<int>, now: int) {
    until.None? || until.value <= now
  }

  predicate GuardAllows(guard: Guard, cutoff: int, now: int) {
    && !guard.fenced && guard.released && guard.final && guard.updated <= cutoff && guard.delivered
    && Passed(guard.preview, now) && Passed(guard.console, now)
  }

  /** locked_group finds the group unprotected. */
  predicate Unprotected(rows: seq<Artifact>, guards: seq<Guard>, identity: nat, days: int, now: int) {
    && identity < |rows| && rows[identity].work < |guards|
    && GuardAllows(guards[rows[identity].work], now - days * DAY, now)
    && var row := rows[identity];
       && |Aliases(rows, row.key)| <= MAX_ALIASES
       && (forall i :: i in Aliases(rows, row.key) ==>
                         rows[i].work == row.work && rows[i].created <= now - days * DAY && SameState(rows[i], row))
       && (row.expired.Some? ==> row.days == Some(days) && row.expired.value <= now)
  }

  /* ---------- files ---------- */

  /** inspect_file: `None` fails; otherwise the digest, or nothing for content that is missing and may be. */
  function Inspect(digest: Bytes -> string, files: map<Key, Bytes>, row: Artifact): Option<Option<string>> {
    if row.size > MAX_ARTIFACT_BYTES then None
    else if row.key !in files then (if row.expired.Some? then Some(None) else None)
    else if |files[row.key]| != row.size then None
    else if row.sha256.Some? && digest(files[row.key]) != row.sha256.value then None
    else Some(Some(digest(files[row.key])))
  }

  /* ---------- transactions ---------- */

  /** A second transaction that removed a file holds the locks of its work until it ends. */
  predicate Held(world: World, work: nat) {
    exists e :: e in world.runs && world.runs[e].Unlinked? && world.runs[e].identity < |world.rows|
                && world.rows[world.runs[e].identity].work == work
  }

  predicate Free(world: World, identity: nat) {
    identity < |world.rows| ==> !Held(world, world.rows[identity].work)
  }

  function Requested(digest: Bytes -> string, files: map<Key, Bytes>, row: Artifact, now: int, days: int): Artifact {
    row.(expired := Some(now), days := Some(days), sha256 := if row.key in files then Some(digest(files[row.key])) else None)
  }

  function RequestAll(digest: Bytes -> string, files: map<Key, Bytes>, rows: seq<Artifact>, key: Key, now: int,
                      days: int): seq<Artifact> {
    seq(|rows|, i requires 0 <= i < |rows| => if rows[i].key == key then Requested(digest, files, rows[i], now, days) else rows[i])
  }

  predicate Days(days: int) {
    1 <= days <= 36500
  }

  /** First transaction: records the intent on every alias; `None` is a refusal. */
  function Request(digest: Bytes -> string, world: World, e: nat, identity: nat, days: int, now: int): Option<World> {
    if e in world.runs || !Days(days) || !Free(world, identity) || !Unprotected(world.rows, world.guards, identity, days, now) then None
    else
      var row := world.rows[identity];
      if row.purged.Some? || Inspect(digest, world.files, row).None? then None
      else
        var rows := if row.expired.Some? then world.rows else RequestAll(digest, world.files, world.rows, row.key, now, days);
        Some(world.(rows := rows, runs := world.runs[e := Intended(identity, days, now, Intents(rows, row.key))]))
  }

  /** Second transaction up to the removal of the file. An expirer that finds the group changed or done gives up. */
  function Unlink(digest: Bytes -> string, world: World, e: nat): Option<World> {
    if e !in world.runs || !world.runs[e].Intended? || !Free(world, world.runs[e].identity) then None
    else
      var run := world.runs[e];
      var given := Some(world.(runs := world.runs - {e}));
      if !Unprotected(world.rows, world.guards, run.identity, run.days, run.now) then given
      else
        var row := world.rows[run.identity];
        if row.purged.Some? || row.expired.None? || Intents(world.rows, row.key) != run.intent
           || row.sha256.None? || Inspect(digest, world.files, row).None? then given
        else Some(world.(files := world.files - {row.key}, runs := world.runs[e := Unlinked(run.identity, run.now)]))
  }

  function PurgeAll(rows: seq<Artifact>, key: Key, at: int): seq<Artifact> {
    seq(|rows|, i requires 0 <= i < |rows| => if rows[i].key == key then rows[i].(purged := Some(at)) else rows[i])
  }

  /** Second transaction, its commit; `time` is the clock. */
  function Commit(world: World, e: nat, time: int): Option<World> {
    if e !in world.runs || !world.runs[e].Unlinked? || world.runs[e].identity >= |world.rows| then None
    else
      var run := world.runs[e];
      var at := if run.now < time then time else run.now;
      Some(world.(rows := PurgeAll(world.rows, world.rows[run.identity].key, at), runs := world.runs - {e}))
  }

  /** A crash, a lost connection or a timeout: the transaction rolls back, a removed file stays removed. */
  function Abort(world: World, e: nat): Option<World> {
    Some(world.(runs := world.runs - {e}))
  }

  /* ---------- everything else ---------- */

  function AddWork(world: World, guard: Guard): Option<World> {
    Some(world.(guards := world.guards + [guard]))
  }

  /** Settled work stays settled: terminal work never changes and a released lease stays released. */
  function ChangeGuard(world: World, w: nat, guard: Guard): Option<World> {
    if w >= |world.guards| || Held(world, w) || (Settled(world.guards[w]) && !Settled(guard)) then None
    else Some(world.(guards := world.guards[w := guard]))
  }

  /** Files and rows are written under a valid lease, which settled work does not have. */
  function Write(world: World, key: Key, content: Bytes): Option<World> {
    if key.work >= |world.guards| || Settled(world.guards[key.work]) then None
    else Some(world.(files := world.files[key := content]))
  }

  function Register(world: World, key: Key, size: nat, created: int): Option<World> {
    if key.work >= |world.guards| || Settled(world.guards[key.work]) then None
    else Some(world.(rows := world.rows + [Artifact(key, key.work, size, created, None, None, None, None)]))
  }

  datatype Action =
    | ARequest(e: nat, identity: nat, days: int, now: int)
    | AUnlink(e: nat)
    | ACommit(e: nat, time: int)
    | AAbort(e: nat)
    | AWork(guard: Guard)
    | AGuard(w: nat, guard: Guard)
    | AWrite(key: Key, content: Bytes)
    | ARegister(key: Key, size: nat, created: int)

  function Apply(digest: Bytes -> string, world: World, action: Action): Option<World> {
    match action
    case ARequest(e, identity, days, now) => Request(digest, world, e, identity, days, now)
    case AUnlink(e) => Unlink(digest, world, e)
    case ACommit(e, time) => Commit(world, e, time)
    case AAbort(e) => Abort(world, e)
    case AWork(guard) => AddWork(world, guard)
    case AGuard(w, guard) => ChangeGuard(world, w, guard)
    case AWrite(key, content) => Write(world, key, content)
    case ARegister(key, size, created) => Register(world, key, size, created)
  }

  function Step(digest: Bytes -> string, world: World, action: Action): World {
    var r := Apply(digest, world, action);
    if r.None? then world else r.value
  }

  function History(digest: Bytes -> string, world: World, actions: seq<Action>): World
    decreases actions
  {
    if actions == [] then world else History(digest, Step(digest, world, actions[0]), actions[1..])
  }

  const EMPTY := World([], [], map[], map[])

  /* ---------- invariants ---------- */

  /** The table's check constraint. */
  predicate Constraint(row: Artifact) {
    || (row.expired.None? && row.purged.None? && row.days.None? && row.sha256.None?)
    || (row.expired.Some? && row.days.Some? && Days(row.days.value) && row.sha256.Some? && |row.sha256.value| == 64
        && (row.purged.Some? ==> row.expired.value <= row.purged.value))
  }

  ghost predicate RowsOk(rows: seq<Artifact>, guards: seq<Guard>) {
    forall i :: 0 <= i < |rows| ==>
                  && rows[i].work < |guards| && rows[i].key.work == rows[i].work && Constraint(rows[i])
                  && (rows[i].expired.Some? ==> Settled(guards[rows[i].work]) && rows[i].size <= MAX_ARTIFACT_BYTES)
  }

  /** Aliases of a file share one expiration. */
  ghost predicate AliasesOk(rows: seq<Artifact>) {
    forall i, j :: 0 <= i < |rows| && 0 <= j < |rows| && rows[i].key == rows[j].key && rows[i].expired.Some? ==> SameState(rows[i], rows[j])
  }

  /** Purged content is gone, and content with an intent is the content of the intent. */
  ghost predicate FilesOk(digest: Bytes -> string, rows: seq<Artifact>, files: map<Key, Bytes>) {
    forall i :: 0 <= i < |rows| && rows[i].key in files ==>
                  && rows[i].purged.None?
                  && (rows[i].expired.Some? ==> rows[i].sha256 == Some(digest(files[rows[i].key])) && rows[i].size == |files[rows[i].key]|)
  }

  predicate OneWork(rows: seq<Artifact>, r: Run, q: Run) {
    r.Unlinked? && q.Unlinked? && r.identity < |rows| && q.identity < |rows| && rows[r.identity].work == rows[q.identity].work
  }

  /** Inside a second transaction the file is gone and the intent stands, unpurged, no later than the expirer. */
  ghost predicate RunsOk(rows: seq<Artifact>, files: map<Key, Bytes>, runs: map<nat, Run>) {
    && (forall e :: e in runs ==> runs[e].identity < |rows|)
    && (forall e :: e in runs && runs[e].Unlinked? ==>
                      var row := rows[runs[e].identity];
                      row.key !in files && row.expired.Some? && row.purged.None? && row.expired.value <= runs[e].now)
    && (forall e, f :: e in runs && f in runs && OneWork(rows, runs[e], runs[f]) ==> e == f)
  }

  ghost predicate Inv(digest: Bytes -> string, world: World) {
    && RowsOk(world.rows, world.guards) && AliasesOk(world.rows) && FilesOk(digest, world.rows, world.files)
    && RunsOk(world.rows, world.files, world.runs)
  }

  ghost predicate Hashes(digest: Bytes -> string) {
    forall content :: |digest(content)| == 64
  }

  /* ---------- every step keeps the invariant ---------- */

  /** The alias loop of the first transaction changes a group as a whole. */
  lemma RequestingKeeps(digest: Bytes -> string, world: World, row: Artifact, now: int, days: int)
    requires Hashes(digest) && Inv(digest, world) && row in world.rows && row.expired.None? && Days(days)
    requires row.work < |world.guards| && Settled(world.guards[row.work]) && Inspect(digest, world.files, row).Some?
    requires forall i :: i in Aliases(world.rows, row.key) ==> SameState(world.rows[i], row)
    ensures RowsOk(RequestAll(digest, world.files, world.rows, row.key, now, days), world.guards)
    ensures AliasesOk(RequestAll(digest, world.files, world.rows, row.key, now, days))
    ensures FilesOk(digest, RequestAll(digest, world.files, world.rows, row.key, now, days), world.files)
  {
    forall i | 0 <= i < |world.rows| && world.rows[i].key == row.key
      ensures SameState(world.rows[i], row)
    {
      assert i in Aliases(world.rows, row.key);
    }
  }

  lemma StartingKeeps(rows: seq<Artifact>, files: map<Key, Bytes>, runs: map<nat, Run>, e: nat, run: Run)
    requires RunsOk(rows, files, runs) && run.Intended? && run.identity < |rows|
    ensures RunsOk(rows, files, runs[e := run])
  {
  }

  lemma RequestKeeps(digest: Bytes -> string, world: World, e: nat, identity: nat, days: int, now: int)
    requires Hashes(digest) && Inv(digest, world) && Request(digest, world, e, identity, days, now).Some?
    ensures Inv(digest, Request(digest, world, e, identity, days, now).value)
  {
    var row := world.rows[identity];
    var after := Request(digest, world, e, identity, days, now).value;
    if row.expired.None? {
      RequestingKeeps(digest, world, row, now, days);
      RunsKeepRequest(digest, world, row, now, days);
    }
    StartingKeeps(after.rows, world.files, world.runs, e, Intended(identity, days, now, Intents(after.rows, row.key)));
  }

  /** Groups inside a second transaction belong to other works. */
  lemma RunsKeepRequest(digest: Bytes -> string, world: World, row: Artifact, now: int, days: int)
    requires Inv(digest, world) && row.expired.None? && forall i :: i in Aliases(world.rows, row.key) ==> SameState(world.rows[i], row)
    ensures RunsOk(RequestAll(digest, world.files, world.rows, row.key, now, days), world.files, world.runs)
  {
    forall i | 0 <= i < |world.rows| && world.rows[i].key == row.key
      ensures world.rows[i].expired.None?
    {
      assert i in Aliases(world.rows, row.key);
    }
  }

  lemma UnlinkKeeps(digest: Bytes -> string, world: World, e: nat)
    requires Inv(digest, world) && Unlink(digest, world, e).Some?
    ensures Inv(digest, Unlink(digest, world, e).value)
  {
  }

  lemma CommitKeeps(digest: Bytes -> string, world: World, e: nat, time: int)
    requires Inv(digest, world) && Commit(world, e, time).Some?
    ensures Inv(digest, Commit(world, e, time).value)
  {
  }

  lemma OthersKeep(digest: Bytes -> string, world: World, action: Action)
    requires Inv(digest, world) && (action.AAbort? || action.AWork? || action.AGuard? || action.AWrite? || action.ARegister?)
    ensures Inv(digest, Step(digest, world, action))
  {
  }

  lemma StepKeeps(digest: Bytes -> string, world: World, action: Action)
    requires Hashes(digest) && Inv(digest, world)
    ensures Inv(digest, Step(digest, world, action))
  {
    if Apply(digest, world, action).Some? {
      match action
      case ARequest(e, identity, days, now) => RequestKeeps(digest, world, e, identity, days, now);
      case AUnlink(e) => UnlinkKeeps(digest, world, e);
      case ACommit(e, time) => CommitKeeps(digest, world, e, time);
      case _ => OthersKeep(digest, world, action);
    }
  }

  lemma {:induction false} HistoryKeeps(digest: Bytes -> string, world: World, actions: seq<Action>)
    requires Hashes(digest) && Inv(digest, world)
    ensures Inv(digest, History(digest, world, actions))
    decreases actions
  {
    if actions != [] {
      StepKeeps(digest, world, actions[0]);
      HistoryKeeps(digest, Step(digest, world, actions[0]), actions[1..]);
    }
  }

  ghost predicate Reachable(digest: Bytes -> string, world: World) {
    exists actions :: History(digest, EMPTY, actions) == world
  }

  lemma ReachableIsSound(digest: Bytes -> string, world: World)
    requires Hashes(digest) && Reachable(digest, world)
    ensures Inv(digest, world)
  {
    var actions :| History(digest, EMPTY, actions) == world;
    HistoryKeeps(digest, EMPTY, actions);
  }

  /* ---------- what every run promises ---------- */

  /** Bytes are removed only after an intent was committed on every alias of their key, and only the bytes of that intent. */
  lemma RemovedOnlyAfterIntent(digest: Bytes -> string, world: World, action: Action, key: Key, i: nat)
    requires Hashes(digest) && Reachable(digest, world) && key in world.files && key !in Step(digest, world, action).files
    requires i < |world.rows| && world.rows[i].key == key
    ensures Step(digest, world, action).rows == world.rows
    ensures world.rows[i].expired.Some? && world.rows[i].purged.None?
    ensures key.work < |world.guards| && Settled(world.guards[key.work])
    ensures world.rows[i].sha256 == Some(digest(world.files[key])) && world.rows[i].size == |world.files[key]|
  {
    ReachableIsSound(digest, world);
    if action.AUnlink? {
      var run := world.runs[action.e];
      assert i in Aliases(world.rows, world.rows[run.identity].key);
    }
  }

  /** Nobody removes bytes that no row describes. */
  lemma UnknownFilesStay(digest: Bytes -> string, world: World, action: Action, key: Key)
    requires key in world.files && forall i :: 0 <= i < |world.rows| ==> world.rows[i].key != key
    ensures key in Step(digest, world, action).files
  {
  }

  /** An intent is never taken back or changed, and neither is its completion. */
  ghost predicate RowsEvolve(s: seq<Artifact>, t: seq<Artifact>) {
    && |s| <= |t|
    && (forall i :: 0 <= i < |s| ==> t[i].key == s[i].key && t[i].size == s[i].size)
    && (forall i :: 0 <= i < |s| && s[i].expired.Some? ==> t[i].expired == s[i].expired && t[i].days == s[i].days && t[i].sha256 == s[i].sha256)
    && (forall i :: 0 <= i < |s| && s[i].purged.Some? ==> t[i] == s[i])
  }

  lemma StepEvolves(digest: Bytes -> string, world: World, action: Action)
    requires Hashes(digest) && Inv(digest, world)
    ensures RowsEvolve(world.rows, Step(digest, world, action).rows)
  {
    if action.ARequest? && Apply(digest, world, action).Some? {
      var row := world.rows[action.identity];
      assert forall i :: 0 <= i < |world.rows| && world.rows[i].key == row.key ==> i in Aliases(world.rows, row.key);
    }
  }

  lemma {:induction false} HistoryEvolves(digest: Bytes -> string, world: World, actions: seq<Action>)
    requires Hashes(digest) && Inv(digest, world)
    ensures RowsEvolve(world.rows, History(digest, world, actions).rows)
    decreases actions
  {
    if actions != [] {
      StepKeeps(digest, world, actions[0]);
      StepEvolves(digest, world, actions[0]);
      HistoryEvolves(digest, Step(digest, world, actions[0]), actions[1..]);
    }
  }

  /** What the table checks holds of every row at every commit: no retention evidence at all, or the expiration with its days and
      its digest, and the purge, if any, not before it. */
  lemma RowsMeetTheCheck(digest: Bytes -> string, world: World, i: nat)
    requires Hashes(digest) && Reachable(digest, world) && i < |world.rows|
    ensures var row := world.rows[i];
            && (row.expired.Some? <==> row.days.Some?) && (row.expired.Some? <==> row.sha256.Some?)
            && (row.expired.Some? ==> 1 <= row.days.value <= 36500 && |row.sha256.value| == 64)
            && (row.purged.Some? ==> row.expired.Some? && row.purged.value >= row.expired.value)
  {
    ReachableIsSound(digest, world);
  }

  /** Purged content is absent, and stays absent with the same evidence, whatever happens later. */
  lemma PurgedIsAbsentForever(digest: Bytes -> string, world: World, actions: seq<Action>, i: nat)
    requires Hashes(digest) && Reachable(digest, world) && i < |world.rows| && world.rows[i].purged.Some?
    ensures Constraint(world.rows[i]) && i < |History(digest, world, actions).rows|
    ensures History(digest, world, actions).rows[i] == world.rows[i] && world.rows[i].key !in History(digest, world, actions).files
  {
    ReachableIsSound(digest, world);
    HistoryKeeps(digest, world, actions);
    HistoryEvolves(digest, world, actions);
  }

  /** An expirer that dies inside its second transaction frees the group. */
  lemma AbortFrees(digest: Bytes -> string, world: World, e: nat)
    requires Inv(digest, world) && e in world.runs && world.runs[e].Unlinked?
    ensures Free(Abort(world, e).value, world.runs[e].identity)
  {
    var after := Abort(world, e).value;
    forall f | f in after.runs && after.runs[f].Unlinked? && after.runs[f].identity < |after.rows|
      ensures after.rows[after.runs[f].identity].work != world.rows[world.runs[e].identity].work
    {
      assert OneWork(world.rows, world.runs[f], world.runs[e]) ==> f == e;
    }
  }

  /** What is left of an intent after any crash passes the check of the file again. */
  lemma IntentStillInspects(digest: Bytes -> string, world: World, identity: nat)
    requires Inv(digest, world) && identity < |world.rows| && world.rows[identity].expired.Some?
    ensures Inspect(digest, world.files, world.rows[identity]).Some? && world.rows[identity].sha256.Some?
    ensures world.rows[identity].days.Some? && Days(world.rows[identity].days.value)
  {
    assert Constraint(world.rows[identity]);
  }

  /** From every crash point, a retry of an intent that is still unprotected completes it: the file is gone and every alias says so. */
  lemma RetryReachesPurged(digest: Bytes -> string, world: World, e: nat, identity: nat, days: int, now: int,
                           time: int) returns (after: World)
    requires Hashes(digest) && Reachable(digest, world) && e !in world.runs && Free(world, identity)
    requires Unprotected(world.rows, world.guards, identity, days, now)
    requires world.rows[identity].expired.Some? && world.rows[identity].purged.None?
    ensures after == History(digest, world, [ARequest(e, identity, days, now), AUnlink(e), ACommit(e, time)])
    ensures world.rows[identity].key !in after.files && |after.rows| == |world.rows|
    ensures forall i :: i in Aliases(world.rows, world.rows[identity].key) ==> after.rows[i].purged.Some?
    ensures after.runs == world.runs
  {
    ReachableIsSound(digest, world);
    IntentStillInspects(digest, world, identity);
    var row := world.rows[identity];
    var actions := [ARequest(e, identity, days, now), AUnlink(e), ACommit(e, time)];
    ThreeSteps(digest, world, actions);
    var first := Step(digest, world, actions[0]);
    assert first == world.(runs := world.runs[e := Intended(identity, days, now, Intents(world.rows, row.key))]);
    HeldElsewhere(world, first, e, row.work);
    var second := Step(digest, first, actions[1]);
    assert second == first.(files := first.files - {row.key}, runs := first.runs[e := Unlinked(identity, now)]);
    after := Step(digest, second, actions[2]);
    assert after.runs == world.runs;
  }

  lemma ThreeSteps(digest: Bytes -> string, world: World, actions: seq<Action>)
    requires |actions| == 3
    ensures History(digest, world, actions) == Step(digest, Step(digest, Step(digest, world, actions[0]), actions[1]), actions[2])
  {
    var rest := actions[1..];
    assert rest[1..][0] == actions[2] && rest[1..][1..] == [];
    assert History(digest, world, actions) == History(digest, Step(digest, world, actions[0]), rest);
    assert History(digest, Step(digest, world, actions[0]), rest)
        == History(digest, Step(digest, Step(digest, world, actions[0]), actions[1]), rest[1..]);
  }

  lemma HeldElsewhere(world: World, first: World, e: nat, work: nat)
    requires e !in world.runs && first.rows == world.rows && e in first.runs && first.runs[e].Intended? && first.runs == world.runs[e := first.runs[e]]
    ensures Held(first, work) <==> Held(world, work)
  {
    if Held(world, work) {
      var f :| f in world.runs && world.runs[f].Unlinked? && world.runs[f].identity < |world.rows| && world.rows[world.runs[f].identity].work == work;
      assert first.runs[f] == world.runs[f];
    }
  }

  /* ---------- the retention period ---------- */

  /** Whoever removes bytes does so a whole retention period, of days of 86400 seconds, after the artifact was created under
      any of its names and after its work was last updated, for final, released and delivered work of no quarantined worker,
      and beyond the time of any preview or console. */
  lemma RemovedOnlyWhenDue(digest: Bytes -> string, world: World, action: Action, key: Key) returns (e: nat)
    requires Hashes(digest) && Reachable(digest, world) && key in world.files && key !in Step(digest, world, action).files
    ensures action == AUnlink(e) && e in world.runs && world.runs[e].Intended?
    ensures var run := world.runs[e];
            && (forall i :: 0 <= i < |world.rows| && world.rows[i].key == key ==>
                              world.rows[i].created + 86400 * run.days <= run.now && world.rows[i].days == Some(run.days)
                              && world.rows[i].expired.Some? && world.rows[i].expired.value <= run.now)
            && key.work < |world.guards| && 1 <= run.days <= 36500 && |world.files[key]| <= 10485760
            && |set i | 0 <= i < |world.rows| && world.rows[i].key == key| <= 10000
            && var guard := world.guards[key.work];
               && guard.updated + 86400 * run.days <= run.now
               && guard.final && guard.released && guard.delivered && !guard.fenced
               && (guard.preview.Some? ==> guard.preview.value <= run.now) && (guard.console.Some? ==> guard.console.value <= run.now)
  {
    ReachableIsSound(digest, world);
    e := action.e;
    var run := world.runs[e];
    assert world.rows[run.identity].key == key;
    UnprotectedMeansDue(world, run.identity, run.days, run.now);
    assert Constraint(world.rows[run.identity]);
    forall i | 0 <= i < |world.rows| && world.rows[i].key == key
      ensures world.rows[i].created + 86400 * run.days <= run.now && SameState(world.rows[i], world.rows[run.identity])
    {
      assert i in Aliases(world.rows, key);
    }
  }

  /** A group that nothing protects, said without the names of this module. */
  ghost predicate Due(world: World, identity: nat, days: int, now: int)
    requires identity < |world.rows| && world.rows[identity].work < |world.guards|
  {
    var row, guard := world.rows[identity], world.guards[world.rows[identity].work];
    && |set i | 0 <= i < |world.rows| && world.rows[i].key == row.key| <= 10000
    && (forall i :: 0 <= i < |world.rows| && world.rows[i].key == row.key ==>
                      world.rows[i].created + 86400 * days <= now && world.rows[i].work == row.work
                      && world.rows[i].expired == row.expired && world.rows[i].purged == row.purged
                      && world.rows[i].days == row.days && world.rows[i].sha256 == row.sha256 && world.rows[i].size == row.size)
    && guard.updated + 86400 * days <= now
    && guard.final && guard.released && guard.delivered && !guard.fenced
    && (guard.preview.Some? ==> guard.preview.value <= now) && (guard.console.Some? ==> guard.console.value <= now)
    && (row.expired.Some? ==> row.days == Some(days) && row.expired.value <= now)
  }

  lemma UnprotectedMeansDue(world: World, identity: nat, days: int, now: int)
    requires identity < |world.rows| && world.rows[identity].work < |world.guards|
    ensures Unprotected(world.rows, world.guards, identity, days, now) <==> Due(world, identity, days, now)
  {
    var row := world.rows[identity];
    assert (set i | 0 <= i < |world.rows| && world.rows[i].key == row.key) == Aliases(world.rows, row.key);
  }

  /** Whatever is due, is not yet expired and has its recorded size, at most 10 MiB, is removed by an undisturbed expirer. */
  lemma DueIsRemoved(digest: Bytes -> string, world: World, e: nat, identity: nat, days: int, now: int)
    requires Hashes(digest) && Reachable(digest, world) && e !in world.runs && identity < |world.rows| && Free(world, identity)
    requires world.rows[identity].work < |world.guards| && Due(world, identity, days, now) && 1 <= days <= 36500
    requires var row := world.rows[identity];
             row.expired.None? && row.size <= 10485760 && row.key in world.files && |world.files[row.key]| == row.size
    ensures var after := History(digest, world, [ARequest(e, identity, days, now), AUnlink(e)]);
            world.rows[identity].key !in after.files && |after.rows| == |world.rows| && after.rows[identity].expired == Some(now)
  {
    ReachableIsSound(digest, world);
    var actions := [ARequest(e, identity, days, now), AUnlink(e)];
    var first := Step(digest, world, actions[0]);
    assert Constraint(world.rows[identity]);
    DueIsRequested(digest, world, e, identity, days, now);
    RequestedIsDue(digest, world, identity, days, now, first);
    DueIsUnlinked(digest, first, e, identity, days, now);
    assert actions[1..] == [actions[1]] && actions[1..][1..] == [];
    assert History(digest, world, actions) == History(digest, first, actions[1..])
        == History(digest, Step(digest, first, actions[1]), []);
  }

  lemma DueIsRequested(digest: Bytes -> string, world: World, e: nat, identity: nat, days: int, now: int)
    requires e !in world.runs && identity < |world.rows| && Free(world, identity) && 1 <= days <= 36500
    requires world.rows[identity].work < |world.guards| && Due(world, identity, days, now)
    requires var row := world.rows[identity];
             row.expired.None? && row.purged.None? && row.sha256.None?
             && row.size <= 10485760 && row.key in world.files && |world.files[row.key]| == row.size
    ensures var rows := RequestAll(digest, world.files, world.rows, world.rows[identity].key, now, days);
            var first := Step(digest, world, ARequest(e, identity, days, now));
            first == world.(rows := rows, runs := world.runs[e := Intended(identity, days, now, Intents(rows, world.rows[identity].key))])
            && Free(first, identity)
  {
    UnprotectedMeansDue(world, identity, days, now);
    var row := world.rows[identity];
    var rows := RequestAll(digest, world.files, world.rows, row.key, now, days);
    var first := Step(digest, world, ARequest(e, identity, days, now));
    assert first == world.(rows := rows, runs := world.runs[e := Intended(identity, days, now, Intents(rows, row.key))]);
    HeldElsewhere(world.(rows := rows), first, e, row.work);
    SameHolders(world, world.(rows := rows), row.work);
  }

  lemma SameHolders(world: World, other: World, work: nat)
    requires world.runs == other.runs && |world.rows| == |other.rows|
    requires forall i :: 0 <= i < |world.rows| ==> world.rows[i].work == other.rows[i].work
    ensures Held(world, work) <==> Held(other, work)
  {
  }

  lemma DueIsUnlinked(digest: Bytes -> string, first: World, e: nat, identity: nat, days: int, now: int)
    requires identity < |first.rows| && first.rows[identity].work < |first.guards| && Due(first, identity, days, now) && Free(first, identity)
    requires e in first.runs && first.runs[e] == Intended(identity, days, now, Intents(first.rows, first.rows[identity].key))
    requires var row := first.rows[identity];
             row.expired.Some? && row.purged.None? && row.size <= 10485760 && row.key in first.files
             && |first.files[row.key]| == row.size && row.sha256 == Some(digest(first.files[row.key]))
    ensures var after := Step(digest, first, AUnlink(e));
            first.rows[identity].key !in after.files && after.rows == first.rows
  {
    UnprotectedMeansDue(first, identity, days, now);
  }

  /** Recording the intent leaves the group due. */
  lemma RequestedIsDue(digest: Bytes -> string, world: World, identity: nat, days: int, now: int, first: World)
    requires identity < |world.rows| && world.rows[identity].work < |world.guards| && Due(world, identity, days, now)
    requires first.rows == RequestAll(digest, world.files, world.rows, world.rows[identity].key, now, days) && first.guards == world.guards
    ensures |first.rows| == |world.rows| && first.rows[identity] == Requested(digest, world.files, world.rows[identity], now, days)
    ensures Due(first, identity, days, now)
  {
    var key := world.rows[identity].key;
    assert (set i | 0 <= i < |first.rows| && first.rows[i].key == key) == (set i | 0 <= i < |world.rows| && world.rows[i].key == key);
  }
}
