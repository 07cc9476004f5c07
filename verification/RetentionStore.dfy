/**
 The two transactions of an expiration as the program performs them, alias by alias.
 */
module RetentionStore {
  import opened Retention
  import opened Wrappers

  datatype Outcome = Protected | Failed | AlreadyPurged | Eligible | Started

  class Store {
    const digest: Bytes -> string
    var rows: seq<Artifact>
    var guards: seq<Guard>
    var files: map<Key, Bytes>
    var runs: map<nat, Run>

    ghost function State(): World
      reads this
    {
      World(rows, guards, files, runs)
    }

    constructor (digest: Bytes -> string)
      ensures State() == EMPTY && this.digest == digest
    {
      this.digest := digest;
      rows, guards, files, runs := [], [], map[], map[];
    }

    /** Whether nothing protects the group of aliases. */
    method LockedGroup(identity: nat, days: int, now: int) returns (ok: bool)
      ensures ok == Unprotected(rows, guards, identity, days, now)
    {
      if identity >= |rows| || rows[identity].work >= |guards| {
        return false;
      }
      var row := rows[identity];
      var guard := guards[row.work];
      if guard.fenced || !guard.released || !guard.final {
        return false;
      }
      if guard.updated > now - days * DAY || !guard.delivered {
        return false;
      }
      if (guard.preview.Some? && guard.preview.value > now) || (guard.console.Some? && guard.console.value > now) {
        return false;
      }
      if |Aliases(rows, row.key)| > MAX_ALIASES {
        return false;
      }
      for i := 0 to |rows|
        invariant forall j :: 0 <= j < i && rows[j].key == row.key ==>
                                rows[j].work == row.work && rows[j].created <= now - days * DAY && SameState(rows[j], row)
      {
        if rows[i].key == row.key && (rows[i].work != row.work || rows[i].created > now - days * DAY || !SameState(rows[i], row)) {
          assert i in Aliases(rows, row.key);
          return false;
        }
      }
      return row.expired.Some? ==> row.days == Some(days) && row.expired.value <= now;
    }

    /** Reads the content of a row and checks it against size and digest. Content that it accepts before an intent is
        accepted again, with the same digest, once the intent is recorded; content that differs from an intent never is. */
    method InspectFile(identity: nat) returns (found: Option<Option<string>>)
      requires identity < |rows|
      ensures found == Inspect(digest, files, rows[identity])
      ensures found.Some? && found.value.Some? ==>
                rows[identity].key in files && |files[rows[identity].key]| == rows[identity].size
                && forall now, days :: Inspect(digest, files, Requested(digest, files, rows[identity], now, days)) == found
      ensures forall intended ::
                rows[identity].sha256 == Some(intended) && rows[identity].key in files && digest(files[rows[identity].key]) != intended ==> found.None?
      ensures found == Some(None) ==> rows[identity].key !in files && rows[identity].expired.Some?
    {
      var row := rows[identity];
      if row.size > MAX_ARTIFACT_BYTES {
        return None;
      }
      if row.key !in files {
        if row.expired.Some? {
          return Some(None);
        }
        return None;
      }
      var content := files[row.key];
      if |content| != row.size {
        return None;
      }
      var sha256 := digest(content);
      if row.sha256.Some? && row.sha256.value != sha256 {
        return None;
      }
      return Some(Some(sha256));
    }

    method RecordIntent(key: Key, now: int, days: int, sha256: Option<string>)
      requires sha256 == if key in files then Some(digest(files[key])) else None
      modifies this`rows
      ensures rows == RequestAll(digest, files, old(rows), key, now, days)
    {
      for i := 0 to |rows|
        invariant |rows| == |old(rows)|
        invariant forall j :: 0 <= j < |rows| ==>
                    rows[j] == if j < i && old(rows)[j].key == key then Requested(digest, files, old(rows)[j], now, days) else old(rows)[j]
      {
        if rows[i].key == key {
          rows := rows[i := rows[i].(expired := Some(now))];
          rows := rows[i := rows[i].(days := Some(days))];
          rows := rows[i := rows[i].(sha256 := sha256)];
        }
      }
    }

    method RecordPurge(key: Key, at: int)
      modifies this`rows
      ensures rows == PurgeAll(old(rows), key, at)
    {
      for i := 0 to |rows|
        invariant |rows| == |old(rows)|
        invariant forall j :: 0 <= j < |rows| ==> rows[j] == if j < i && old(rows)[j].key == key then old(rows)[j].(purged := Some(at)) else old(rows)[j]
      {
        if rows[i].key == key {
          rows := rows[i := rows[i].(purged := Some(at))];
        }
      }
    }

    /** The first transaction; without `apply` it only reports. */
    method RequestExpiration(e: nat, identity: nat, days: int, now: int, apply: bool) returns (outcome: Outcome)
      requires e !in runs && Days(days) && Free(State(), identity)
      modifies this`rows, this`runs
      ensures outcome == Started <==> apply && Request(digest, old(State()), e, identity, days, now).Some?
      ensures outcome == Eligible <==> !apply && Request(digest, old(State()), e, identity, days, now).Some?
      ensures outcome == Protected <==> !old(Unprotected(rows, guards, identity, days, now))
      ensures outcome == AlreadyPurged <==> old(Unprotected(rows, guards, identity, days, now) && rows[identity].purged.Some?)
      ensures outcome == Failed <==> old(Unprotected(rows, guards, identity, days, now) && rows[identity].purged.None?
                                         && Inspect(digest, files, rows[identity]).None?)
      ensures State() == if outcome == Started then Request(digest, old(State()), e, identity, days, now).value else old(State())
    {
      var unprotected := LockedGroup(identity, days, now);
      if !unprotected {
        return Protected;
      }
      var row := rows[identity];
      if row.purged.Some? {
        return AlreadyPurged;
      }
      var found := InspectFile(identity);
      if found.None? {
        return Failed;
      }
      if !apply {
        return Eligible;
      }
      if row.expired.None? {
        RecordIntent(row.key, now, days, found.value);
      }
      runs := runs[e := Intended(identity, days, now, Intents(rows, row.key))];
      return Started;
    }

    /** The second transaction up to the removal of the file; a changed group ends the expirer. */
    method RemoveFile(e: nat) returns (outcome: Outcome)
      requires e in runs && runs[e].Intended? && Free(State(), runs[e].identity)
      modifies this`files, this`runs
      ensures Unlink(digest, old(State()), e) == Some(State())
      ensures outcome == Started <==> e in runs
    {
      var run := runs[e];
      var unprotected := LockedGroup(run.identity, run.days, run.now);
      if !unprotected {
        runs := runs - {e};
        return Protected;
      }
      var row := rows[run.identity];
      if row.purged.Some? {
        runs := runs - {e};
        return AlreadyPurged;
      }
      if row.expired.None? || Intents(rows, row.key) != run.intent {
        runs := runs - {e};
        return Protected;
      }
      var found := InspectFile(run.identity);
      if row.sha256.None? || found.None? {
        runs := runs - {e};
        return Failed;
      }
      files := files - {row.key};
      runs := runs[e := Unlinked(run.identity, run.now)];
      return Started;
    }

    /** The commit of the second transaction. */
    method CommitPurge(e: nat, time: int)
      requires e in runs && runs[e].Unlinked? && runs[e].identity < |rows|
      modifies this`rows, this`runs
      ensures Commit(old(State()), e, time) == Some(State())
    {
      var run := runs[e];
      var at := run.now;
      if at < time {
        at := time;
      }
      RecordPurge(rows[run.identity].key, at);
      runs := runs - {e};
    }
  }
}
