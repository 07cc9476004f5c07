/**
 The durable ownership record of one run: a directory with an immutable record and one marker
 file per phase (run_store.go).

 A directory is the map from file names to contents. Contents are JSON texts followed by a newline;
 the JSON codec is a parameter of which only two facts are used: its texts contain no newline, and
 decoding a line gives back what was encoded. A write ends complete or is interrupted, and then
 leaves no file, or any first part of the content.
 */
module Journal {
  import opened NetworkIdentity
  import opened Wrappers

  datatype Resources = Resources(cpu: int, memoryMb: int, diskGb: int)

  datatype Record = Record(schema: int, runId: RunId, workId: string, domain: string,
                           resources: Resources, createdAt: int, network: Option<Network>)

  datatype Phase = Prepared | Running | CleanupPending | Cleaned | Released

  datatype Marker = Marker(runId: RunId, phase: Phase, at: int)

  datatype OwnedRun = OwnedRun(record: Record, phase: Phase, at: int)

  type Dir = map<string, string>

  datatype Codec<!T> = Codec(enc: T -> string, dec: string -> Option<T>)

  datatype Env = Env(host: Host, isWork: string -> bool, records: Codec<Record>, markers: Codec<Marker>)

  const MAX_RECORD := 4096

  ghost predicate CodecOk<T(!new)>(codec: Codec<T>) {
    forall v :: '\n' !in codec.enc(v) && codec.dec(codec.enc(v) + "\n") == Some(v)
  }

  ghost predicate EnvOk(env: Env) {
    CodecOk(env.records) && CodecOk(env.markers)
  }

  function Line<T>(codec: Codec<T>, v: T): string {
    codec.enc(v) + "\n"
  }

  function FileName(phase: Phase): string {
    match phase
    case Prepared => "run.json"
    case Running => "running.json"
    case CleanupPending => "cleanup-pending.json"
    case Cleaned => "cleaned.json"
    case Released => "released.json"
  }

  function Rank(phase: Phase): nat {
    match phase
    case Prepared => 0
    case Running => 1
    case CleanupPending => 2
    case Cleaned => 3
    case Released => 4
  }

  /* ---------- reading ---------- */

  datatype Read<+T> = Missing | Broken | Got(value: T)

  /** readRecord: the content must be exactly the line of what it decodes to. */
  function ReadFile<T>(codec: Codec<T>, dir: Dir, name: string): Read<T> {
    if name !in dir then Missing
    else if |dir[name]| > MAX_RECORD then Broken
    else match codec.dec(dir[name])
      case None => Broken
      case Some(v) => if dir[name] == Line(codec, v) then Got(v) else Broken
  }

  predicate RecordOk(env: Env, id: RunId, record: Record) {
    && 1 <= record.schema <= 5 && record.runId == id && env.isWork(record.workId) && record.domain == "kelpie-" + id
    && record.resources.cpu >= 1 && record.resources.memoryMb >= 1 && record.resources.diskGb >= 1
    && record.createdAt != 0
    && if record.schema >= 3 then
         && record.network.Some? && NetworkValid(env.host, record.network.value, id)
         && record.network.value.version == record.schema - 2
       else record.network.None?
  }

  function RecordOf(env: Env, id: RunId, dir: Dir): Option<Record> {
    match ReadFile(env.records, dir, FileName(Prepared))
    case Got(record) => if RecordOk(env, id, record) then Some(record) else None
    case _ => None
  }

  /** nextRunPhase */
  predicate NextPhase(current: Phase, next: Phase) {
    || (current == Prepared && (next == Running || next == CleanupPending))
    || (current == Running && next == CleanupPending)
    || (current == CleanupPending && next == Cleaned)
    || (current == Cleaned && next == Released)
  }

  /** One round of the loop over the marker files. */
  function LoadMarker(env: Env, id: RunId, dir: Dir, run: OwnedRun, phase: Phase): Option<OwnedRun> {
    match ReadFile(env.markers, dir, FileName(phase))
    case Missing => Some(run)
    case Broken => None
    case Got(marker) =>
      if marker.runId != id || marker.phase != phase || !NextPhase(run.phase, phase) || marker.at < run.at then None
      else Some(OwnedRun(run.record, phase, marker.at))
  }

  function LoadMarkers(env: Env, id: RunId, dir: Dir, run: OwnedRun, phases: seq<Phase>): Option<OwnedRun>
    decreases |phases|
  {
    if phases == [] then Some(run)
    else
      var next := LoadMarker(env, id, dir, run, phases[0]);
      if next.None? then None else LoadMarkers(env, id, dir, next.value, phases[1..])
  }

  const MARKERS := [Running, CleanupPending, Cleaned, Released]

  /** load; `None` is its error. */
  function LoadDir(env: Env, id: RunId, dir: Dir): Option<OwnedRun> {
    var record := RecordOf(env, id, dir);
    if !env.host.isUuid(id) || record.None? then None
    else LoadMarkers(env, id, dir, OwnedRun(record.value, Prepared, record.value.createdAt), MARKERS)
  }

  method Load(env: Env, id: RunId, dir: Dir) returns (r: Option<OwnedRun>)
    ensures r == LoadDir(env, id, dir)
  {
    if !env.host.isUuid(id) {
      return None;
    }
    var record := RecordOf(env, id, dir);
    if record.None? {
      return None;
    }
    var result := OwnedRun(record.value, Prepared, record.value.createdAt);
    var i := 0;
    while i < |MARKERS|
      invariant i <= |MARKERS|
      invariant LoadDir(env, id, dir) == LoadMarkers(env, id, dir, result, MARKERS[i..])
    {
      var next := LoadMarker(env, id, dir, result, MARKERS[i]);
      assert MARKERS[i..][1..] == MARKERS[i + 1..];
      if next.None? {
        return None;
      }
      result := next.value;
      i := i + 1;
    }
    r := Some(result);
  }

  /* ---------- what a loadable directory looks like ---------- */

  ghost predicate MarkerOk(env: Env, id: RunId, dir: Dir, phase: Phase) {
    var read := ReadFile(env.markers, dir, FileName(phase));
    read.Missing? || (read.Got? && read.value.runId == id && read.value.phase == phase)
  }

  ghost predicate Has(dir: Dir, phase: Phase) {
    FileName(phase) in dir
  }

  /** The time of the last step up to `phase`. */
  ghost function TimeAt(env: Env, dir: Dir, record: Record, phase: Phase): int
    decreases Rank(phase)
  {
    if phase == Prepared then record.createdAt
    else match ReadFile(env.markers, dir, FileName(phase))
      case Got(marker) => marker.at
      case _ => TimeAt(env, dir, record, Before(phase))
  }

  ghost function Before(phase: Phase): Phase {
    match phase
    case Prepared => Prepared
    case Running => Prepared
    case CleanupPending => Running
    case Cleaned => CleanupPending
    case Released => Cleaned
  }

  ghost function LastPhase(dir: Dir): Phase {
    if Has(dir, Released) then Released
    else if Has(dir, Cleaned) then Cleaned
    else if Has(dir, CleanupPending) then CleanupPending
    else if Has(dir, Running) then Running
    else Prepared
  }

  /** The markers form a path: running is optional, every later phase needs its predecessor, times never go back. */
  ghost predicate LegalPath(env: Env, id: RunId, dir: Dir, record: Record) {
    && (forall phase :: phase != Prepared ==> MarkerOk(env, id, dir, phase))
    && (Has(dir, Cleaned) ==> Has(dir, CleanupPending))
    && (Has(dir, Released) ==> Has(dir, Cleaned))
    && (forall phase :: TimeAt(env, dir, record, Before(phase)) <= TimeAt(env, dir, record, phase))
  }

  /** A directory loads exactly when its record is good and its markers form a path; the result is the end of that path. */
  lemma LoadsExactlyLegalPaths(env: Env, id: RunId, dir: Dir)
    ensures LoadDir(env, id, dir).Some? <==>
      env.host.isUuid(id) && RecordOf(env, id, dir).Some? && LegalPath(env, id, dir, RecordOf(env, id, dir).value)
    ensures LoadDir(env, id, dir).Some? ==>
      var record := RecordOf(env, id, dir).value;
      LoadDir(env, id, dir).value == OwnedRun(record, LastPhase(dir), TimeAt(env, dir, record, Released))
  {
    if env.host.isUuid(id) && RecordOf(env, id, dir).Some? {
      var record := RecordOf(env, id, dir).value;
      PathFrom(env, id, dir, record, Prepared);
      assert After(Prepared) == MARKERS;
      StepsFormPath(env, id, dir, record);
    }
  }

  lemma StepsFormPath(env: Env, id: RunId, dir: Dir, record: Record)
    ensures LegalPath(env, id, dir, record) <==> forall next :: 0 < Rank(next) ==> LegalAt(env, id, dir, record, next)
    ensures LastUpTo(dir, Released) == LastPhase(dir)
  {
    assert LastUpTo(dir, Prepared) == Prepared;
    assert LastUpTo(dir, Running) == if Has(dir, Running) then Running else Prepared;
    assert LastUpTo(dir, CleanupPending) == if Has(dir, CleanupPending) then CleanupPending else LastUpTo(dir, Running);
    assert LastUpTo(dir, Cleaned) == if Has(dir, Cleaned) then Cleaned else LastUpTo(dir, CleanupPending);
    assert LastUpTo(dir, Released) == if Has(dir, Released) then Released else LastUpTo(dir, Cleaned);
    if LegalPath(env, id, dir, record) {
      forall next | 0 < Rank(next) ensures LegalAt(env, id, dir, record, next) {
        assert MarkerOk(env, id, dir, next);
      }
    }
    if forall next :: 0 < Rank(next) ==> LegalAt(env, id, dir, record, next) {
      assert LegalAt(env, id, dir, record, Cleaned) && LegalAt(env, id, dir, record, Released);
      forall phase ensures phase != Prepared ==> MarkerOk(env, id, dir, phase)
        ensures TimeAt(env, dir, record, Before(phase)) <= TimeAt(env, dir, record, phase)
      {
        assert phase != Prepared ==> LegalAt(env, id, dir, record, phase);
      }
    }
  }

  ghost function After(phase: Phase): seq<Phase> {
    MARKERS[Rank(phase)..]
  }

  /** The last marker not beyond `phase`. */
  ghost function LastUpTo(dir: Dir, phase: Phase): Phase
    decreases Rank(phase)
  {
    if phase == Prepared || Has(dir, phase) then phase else LastUpTo(dir, Before(phase))
  }

  ghost predicate LegalAt(env: Env, id: RunId, dir: Dir, record: Record, phase: Phase) {
    && MarkerOk(env, id, dir, phase)
    && (Has(dir, phase) ==> NextPhase(LastUpTo(dir, Before(phase)), phase))
    && TimeAt(env, dir, record, Before(phase)) <= TimeAt(env, dir, record, phase)
  }

  /** One round of the loop moves from where it stands before `phase` to where it stands after it, or stops. */
  lemma MarkerStep(env: Env, id: RunId, dir: Dir, record: Record, phase: Phase)
    requires phase != Prepared
    ensures var run := OwnedRun(record, LastUpTo(dir, Before(phase)), TimeAt(env, dir, record, Before(phase)));
      LoadMarker(env, id, dir, run, phase)
      == if LegalAt(env, id, dir, record, phase) then Some(OwnedRun(record, LastUpTo(dir, phase), TimeAt(env, dir, record, phase))) else None
  {
  }

  /** The rest of the loop, started where the loop stands after `phase`. */
  lemma {:induction false} PathFrom(env: Env, id: RunId, dir: Dir, record: Record, phase: Phase)
    ensures var run := OwnedRun(record, LastUpTo(dir, phase), TimeAt(env, dir, record, phase));
      var r := LoadMarkers(env, id, dir, run, After(phase));
      && (r.Some? <==> forall next :: Rank(phase) < Rank(next) ==> LegalAt(env, id, dir, record, next))
      && (r.Some? ==> r.value == OwnedRun(record, LastUpTo(dir, Released), TimeAt(env, dir, record, Released)))
    decreases 4 - Rank(phase)
  {
    if phase != Released {
      var next := After(phase)[0];
      assert Before(next) == phase && Rank(next) == Rank(phase) + 1;
      assert After(phase)[1..] == After(next);
      MarkerStep(env, id, dir, record, next);
      PathFrom(env, id, dir, record, next);
      forall later | Rank(phase) < Rank(later) ensures later == next || Rank(next) < Rank(later) { }
    }
  }

  /** What a directory that loads holds: the line of a record, of at most 4096 characters, of its own name, domain, positive
      resources and creation time, with a valid network of the schema's version or none, and no other file of its markers
      than those of its phases. */
  lemma LoadedIsOwn(env: Env, id: RunId, dir: Dir)
    requires LoadDir(env, id, dir).Some?
    ensures var record := LoadDir(env, id, dir).value.record;
      && env.host.isUuid(id) && "run.json" in dir && dir["run.json"] == env.records.enc(record) + "\n" && |dir["run.json"]| <= 4096
      && record.runId == id && record.domain == "kelpie-" + id && env.isWork(record.workId) && record.createdAt != 0
      && record.resources.cpu >= 1 && record.resources.memoryMb >= 1 && record.resources.diskGb >= 1
      && record.schema in {1, 2, 3, 4, 5} && (record.network.Some? <==> record.schema in {3, 4, 5})
      && (record.network.Some? ==> NetworkValid(env.host, record.network.value, id) && record.network.value.version == record.schema - 2)
    ensures LoadDir(env, id, dir).value.phase == (
      if "released.json" in dir then Released else if "cleaned.json" in dir then Cleaned
      else if "cleanup-pending.json" in dir then CleanupPending else if "running.json" in dir then Running else Prepared)
  {
    LoadsExactlyLegalPaths(env, id, dir);
  }

  /** A directory with nothing but such a line loads, as prepared. */
  lemma OwnIsLoaded(env: Env, id: RunId, record: Record)
    requires EnvOk(env) && env.host.isUuid(id) && |env.records.enc(record) + "\n"| <= 4096
    requires record.runId == id && record.domain == "kelpie-" + id && env.isWork(record.workId) && record.createdAt != 0
    requires record.resources.cpu >= 1 && record.resources.memoryMb >= 1 && record.resources.diskGb >= 1
    requires record.schema in {1, 2, 3, 4, 5} && (record.network.Some? <==> record.schema in {3, 4, 5})
    requires record.network.Some? ==> NetworkValid(env.host, record.network.value, id) && record.network.value.version == record.schema - 2
    ensures LoadDir(env, id, map["run.json" := env.records.enc(record) + "\n"]) == Some(OwnedRun(record, Prepared, record.createdAt))
  {
    var dir := map["run.json" := env.records.enc(record) + "\n"];
    assert dir["run.json"] == Line(env.records, record);
    assert RecordOf(env, id, dir) == Some(record);
    forall phase | phase != Prepared
      ensures !Has(dir, phase)
    {
    }
    NoMarkersLoad(env, id, dir, OwnedRun(record, Prepared, record.createdAt), MARKERS);
  }

  lemma {:induction false} NoMarkersLoad(env: Env, id: RunId, dir: Dir, run: OwnedRun, phases: seq<Phase>)
    requires forall phase :: phase in phases ==> !Has(dir, phase)
    ensures LoadMarkers(env, id, dir, run, phases) == Some(run)
    decreases phases
  {
    if phases != [] {
      assert !Has(dir, phases[0]);
      NoMarkersLoad(env, id, dir, run, phases[1..]);
    }
  }

  /* ---------- writing ---------- */

  /** How an exclusive write ends. `Interrupted(None)` leaves no file, `Interrupted(Some(k))` its first `k` bytes. */
  datatype Write = Complete | Interrupted(kept: Option<nat>)

  /** writeExclusive on a file that may not exist yet; `ok` is its success. */
  function WriteFile(dir: Dir, name: string, line: string, w: Write): (r: (Dir, bool)) {
    if |line| > MAX_RECORD || name in dir then (dir, false)
    else match w
      case Complete => (dir[name := line], true)
      case Interrupted(None) => (dir, false)
      case Interrupted(Some(k)) => (dir[name := if k < |line| then line[..k] else line], false)
  }

  /** A write replaces no file and touches no other one; it is reported only when all of it is there. */
  lemma WritesAreExclusive(dir: Dir, name: string, line: string, w: Write)
    ensures var (after, ok) := WriteFile(dir, name, line, w);
      && (name in dir || |line| > 4096 ==> after == dir && !ok)
      && after - {name} == dir - {name}
      && (name !in dir && name in after ==> after[name] <= line)
      && (ok ==> name !in dir && name in after && after[name] == line)
  {
  }

  function MarkerFor(run: OwnedRun, id: RunId, phase: Phase, now: int): Marker {
    Marker(id, phase, if now < run.at then run.at else now)
  }

  /** Advance on one directory: its new state and, on success, the run as loaded from it. */
  function AdvanceDir(env: Env, id: RunId, dir: Dir, phase: Phase, now: int, w: Write): (Dir, Option<OwnedRun>) {
    var loaded := LoadDir(env, id, dir);
    if loaded.None? then (dir, None)
    else if loaded.value.phase == phase then (dir, loaded)
    else if !NextPhase(loaded.value.phase, phase) then (dir, None)
    else
      var (after, ok) := WriteFile(dir, FileName(phase), Line(env.markers, MarkerFor(loaded.value, id, phase, now)), w);
      (after, if ok then LoadDir(env, id, after) else None)
  }

  lemma LineIsRead<T(!new)>(codec: Codec<T>, dir: Dir, name: string, v: T)
    requires CodecOk(codec) && name in dir && |Line(codec, v)| <= MAX_RECORD
    ensures dir[name] == Line(codec, v) ==> ReadFile(codec, dir, name) == Got(v)
  {
  }

  /** A file cut short is never accepted, whatever it decodes to. */
  lemma TornIsBroken<T(!new)>(codec: Codec<T>, dir: Dir, name: string, v: T, k: nat)
    requires CodecOk(codec) && k < |Line(codec, v)| && name in dir && dir[name] == Line(codec, v)[..k]
    ensures ReadFile(codec, dir, name) == Broken
  {
    assert dir[name] == codec.enc(v)[..k];
    assert '\n' !in dir[name];
    match codec.dec(dir[name])
    case None =>
    case Some(other) =>
      var line := Line(codec, other);
      assert line[|line| - 1] == '\n';
  }

  /** Files a step does not touch are read as before. */
  lemma OtherFilesKept(env: Env, id: RunId, dir: Dir, after: Dir, phase: Phase)
    requires forall other :: other != phase ==>
      && (FileName(other) in after <==> FileName(other) in dir)
      && (FileName(other) in dir ==> after[FileName(other)] == dir[FileName(other)])
    ensures phase != Prepared ==> RecordOf(env, id, after) == RecordOf(env, id, dir)
    ensures forall other :: other != phase ==> ReadFile(env.markers, after, FileName(other)) == ReadFile(env.markers, dir, FileName(other))
    ensures forall other :: other != phase ==> (Has(after, other) <==> Has(dir, other))
  {
  }

  lemma {:induction false} TimesKept(env: Env, dir: Dir, after: Dir, record: Record, phase: Phase, upTo: Phase)
    requires Rank(upTo) < Rank(phase)
    requires forall other :: other != phase ==> ReadFile(env.markers, after, FileName(other)) == ReadFile(env.markers, dir, FileName(other))
    ensures TimeAt(env, after, record, upTo) == TimeAt(env, dir, record, upTo)
    decreases Rank(upTo)
  {
    if upTo != Prepared {
      TimesKept(env, dir, after, record, phase, Before(upTo));
    }
  }

  /** Without markers from `phase` on, time stands still from there. */
  lemma {:induction false} TimeStands(env: Env, dir: Dir, record: Record, phase: Phase, upTo: Phase)
    requires Rank(phase) <= Rank(upTo)
    requires forall other :: Rank(phase) < Rank(other) ==> !Has(dir, other)
    ensures TimeAt(env, dir, record, upTo) == TimeAt(env, dir, record, phase)
    decreases Rank(upTo)
  {
    if upTo != phase {
      assert !Has(dir, upTo);
      TimeStands(env, dir, record, phase, Before(upTo));
    }
  }

  /** The marker of the next phase, and every later one, is not there yet. */
  lemma NextIsAbsent(env: Env, id: RunId, dir: Dir, phase: Phase)
    requires LoadDir(env, id, dir).Some? && NextPhase(LoadDir(env, id, dir).value.phase, phase)
    ensures forall later :: Rank(phase) <= Rank(later) ==> !Has(dir, later)
  {
    LoadsExactlyLegalPaths(env, id, dir);
  }

  /** A completed step moves the run to the phase asked for, at a time that does not go back. */
  lemma CompletedStep(env: Env, id: RunId, dir: Dir, phase: Phase, now: int)
    requires EnvOk(env) && LoadDir(env, id, dir).Some? && NextPhase(LoadDir(env, id, dir).value.phase, phase)
    requires |Line(env.markers, MarkerFor(LoadDir(env, id, dir).value, id, phase, now))| <= MAX_RECORD
    ensures var run := LoadDir(env, id, dir).value;
      var marker := MarkerFor(run, id, phase, now);
      LoadDir(env, id, dir[FileName(phase) := Line(env.markers, marker)]) == Some(OwnedRun(run.record, phase, marker.at))
  {
    var run := LoadDir(env, id, dir).value;
    var record := run.record;
    var marker := MarkerFor(run, id, phase, now);
    var after := dir[FileName(phase) := Line(env.markers, marker)];
    LoadsExactlyLegalPaths(env, id, dir);
    NextIsAbsent(env, id, dir, phase);
    OtherFilesKept(env, id, dir, after, phase);
    LineIsRead(env.markers, after, FileName(phase), marker);
    TimesKept(env, dir, after, record, phase, Before(phase));
    TimeStands(env, dir, record, Before(phase), Released);
    TimeStands(env, after, record, phase, Released);
    assert TimeAt(env, after, record, phase) == marker.at;
    assert LegalPath(env, id, after, record) by {
      forall other ensures other != Prepared ==> MarkerOk(env, id, after, other)
        ensures TimeAt(env, after, record, Before(other)) <= TimeAt(env, after, record, other)
      {
        assert other != Prepared ==> MarkerOk(env, id, dir, other);
        if Rank(other) < Rank(phase) {
          TimesKept(env, dir, after, record, phase, other);
          TimesKept(env, dir, after, record, phase, Before(other));
          assert TimeAt(env, dir, record, Before(other)) <= TimeAt(env, dir, record, other);
        } else if Rank(other) > Rank(phase) {
          TimeStands(env, after, record, phase, other);
          TimeStands(env, after, record, phase, Before(other));
        }
      }
    }
    LoadsExactlyLegalPaths(env, id, after);
  }

  /** A broken marker makes the directory unloadable. */
  lemma BrokenMarkerStops(env: Env, id: RunId, dir: Dir, phase: Phase)
    requires phase != Prepared && ReadFile(env.markers, dir, FileName(phase)) == Broken
    ensures LoadDir(env, id, dir).None?
  {
    LoadsExactlyLegalPaths(env, id, dir);
    assert !MarkerOk(env, id, dir, phase);
  }

  /** Crash safety of one step: after it the run is where it was, where it was asked to go, or cannot be loaded. */
  lemma StepIsCrashSafe(env: Env, id: RunId, dir: Dir, phase: Phase, now: int, w: Write)
    requires EnvOk(env) && LoadDir(env, id, dir).Some?
    ensures var run := LoadDir(env, id, dir).value;
      var (after, result) := AdvanceDir(env, id, dir, phase, now, w);
      var target := OwnedRun(run.record, phase, MarkerFor(run, id, phase, now).at);
      var line := Line(env.markers, MarkerFor(run, id, phase, now));
      && (LoadDir(env, id, after) == Some(run) || LoadDir(env, id, after) == None
          || (NextPhase(run.phase, phase) && LoadDir(env, id, after) == Some(target)))
      // It becomes unloadable exactly when a strict first part of the marker was left.
      && (LoadDir(env, id, after) == None <==>
            NextPhase(run.phase, phase) && |line| <= MAX_RECORD
            && w.Interrupted? && w.kept.Some? && w.kept.value < |line|)
      // Success is reported only for the phase asked for.
      && (result.Some? ==> result == LoadDir(env, id, after) && result.value.phase == phase && result.value.record == run.record)
      && (w.Complete? && NextPhase(run.phase, phase) && |line| <= MAX_RECORD ==> result == Some(target))
  {
    var run := LoadDir(env, id, dir).value;
    var marker := MarkerFor(run, id, phase, now);
    var line := Line(env.markers, marker);
    if NextPhase(run.phase, phase) && |line| <= MAX_RECORD {
      NextIsAbsent(env, id, dir, phase);
      assert !Has(dir, phase);
      CompletedStep(env, id, dir, phase, now);
      if w.Interrupted? && w.kept.Some? && w.kept.value < |line| {
        var after := dir[FileName(phase) := line[..w.kept.value]];
        TornIsBroken(env.markers, after, FileName(phase), marker, w.kept.value);
        BrokenMarkerStops(env, id, after, phase);
      }
    }
  }

  /** Asking again for the phase that was reached changes nothing and reports the same run. */
  lemma AdvanceIsIdempotent(env: Env, id: RunId, dir: Dir, phase: Phase, now: int, w: Write, later: int, again: Write)
    requires EnvOk(env)
    ensures var (after, result) := AdvanceDir(env, id, dir, phase, now, w);
      result.Some? ==> AdvanceDir(env, id, after, phase, later, again) == (after, result)
  {
    if LoadDir(env, id, dir).Some? {
      StepIsCrashSafe(env, id, dir, phase, now, w);
    }
  }

  /** An unloadable directory stays as it is: no step can move it on. */
  lemma UnloadableIsStuck(env: Env, id: RunId, dir: Dir, phase: Phase, now: int, w: Write)
    requires LoadDir(env, id, dir).None?
    ensures AdvanceDir(env, id, dir, phase, now, w) == (dir, None)
  {
  }
}
