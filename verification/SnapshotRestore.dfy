/**
 Restoring a snapshot, and the round trip: a snapshot that was created restores exactly, and the restored
 tree gives the same snapshot again.
 */
module SnapshotRestore {
  import opened Wrappers
  import opened Snapshot

  /* ---------- reading a manifest ---------- */

  /** The database row an entry stands for; entries of the first version are live. */
  function RowOf(e: Entry): Record {
    if e.retained then e.row else e.row.(expired := None, purged := None, days := None, evidence := None)
  }

  function RowsOf(entries: seq<Entry>): seq<Record> {
    seq(|entries|, i requires 0 <= i < |entries| => RowOf(entries[i]))
  }

  /** Live entries name their blob, purged ones none. */
  predicate EntryOk(version: int, e: Entry) {
    && e.retained == (version == 2)
    && if Live(RowOf(e)) then e.sha256.Some? && Hex64(e.sha256.value) else e.sha256.None?
  }

  predicate DigestsAgree(entries: seq<Entry>) {
    forall e, f :: e in entries && f in entries && e.row.key == f.row.key ==> e.sha256 == f.sha256
  }

  predicate EntriesOk(version: int, entries: seq<Entry>) {
    (forall e :: e in entries ==> EntryOk(version, e)) && DigestsAgree(entries)
  }

  /** The trusted manifest of exactly these rows. */
  predicate ManifestMatches(env: Env, tree: Tree, rows: seq<Record>, database: string, trusted: string, path: Path) {
    && RowsOk(env, rows) && Hex64(database) && Hex64(trusted)
    && path in tree.files && |tree.files[path]| <= MAX_MANIFEST_BYTES && env.digest(tree.files[path]) == trusted
    && env.decode(tree.files[path]).Some?
    && var manifest := env.decode(tree.files[path]).value;
       && (manifest.version == 1 || manifest.version == 2) && manifest.database == database && |manifest.entries| <= MAX_ENTRIES
       && EntriesOk(manifest.version, manifest.entries)
       && RowsOk(env, RowsOf(manifest.entries)) && Sort(RowsOf(manifest.entries)) == Sort(rows)
  }

  function EntriesAt(env: Env, tree: Tree, path: Path): seq<Entry> {
    if path in tree.files && env.decode(tree.files[path]).Some? then env.decode(tree.files[path]).value.entries else []
  }

  method CheckEntries(version: int, entries: seq<Entry>) returns (ok: bool)
    ensures ok <==> EntriesOk(version, entries)
  {
    var keys: map<Path, Option<string>> := map[];
    for i := 0 to |entries|
      invariant EntriesOk(version, entries[..i])
      invariant forall e :: e in entries[..i] ==> e.row.key in keys && keys[e.row.key] == e.sha256
      invariant forall key :: key in keys ==> exists e :: e in entries[..i] && e.row.key == key
    {
      assert entries[..i + 1] == entries[..i] + [entries[i]];
      assert forall e :: e in entries[..i + 1] ==> e in entries;
      if !EntryOk(version, entries[i]) {
        return false;
      }
      var key := entries[i].row.key;
      if key in keys && keys[key] != entries[i].sha256 {
        return false;
      }
      keys := keys[key := entries[i].sha256];
    }
    assert entries[..|entries|] == entries;
    return true;
  }

  method CheckedManifest(env: Env, tree: Tree, rows: seq<Record>, database: string, trusted: string, path: Path)
    returns (entries: Option<seq<Entry>>)
    ensures entries == if ManifestMatches(env, tree, rows, database, trusted, path) then Some(EntriesAt(env, tree, path)) else None
  {
    var expected := Records(env, rows);
    if expected.None? || !Hex64(database) || !Hex64(trusted) {
      return None;
    }
    if path !in tree.files || |tree.files[path]| > MAX_MANIFEST_BYTES {
      return None;
    }
    var raw := tree.files[path];
    if env.digest(raw) != trusted {
      return None;
    }
    var decoded := env.decode(raw);
    if decoded.None? {
      return None;
    }
    var manifest := decoded.value;
    if (manifest.version != 1 && manifest.version != 2) || manifest.database != database || |manifest.entries| > MAX_ENTRIES {
      return None;
    }
    var consistent := CheckEntries(manifest.version, manifest.entries);
    if !consistent {
      return None;
    }
    var restored := Records(env, RowsOf(manifest.entries));
    if restored != expected {
      return None;
    }
    return Some(manifest.entries);
  }

  /* ---------- blobs ---------- */

  /** The blob of a live entry has its size and its digest. */
  predicate BlobOk(env: Env, backup: Tree, e: Entry) {
    e.sha256.Some? ==>
      && BlobPath(e.sha256.value) in backup.files
      && |backup.files[BlobPath(e.sha256.value)]| == e.row.size <= MAX_ARTIFACT_BYTES
      && env.digest(backup.files[BlobPath(e.sha256.value)]) == e.sha256.value
  }

  predicate BlobsOk(env: Env, backup: Tree, entries: seq<Entry>) {
    forall e :: e in entries ==> BlobOk(env, backup, e)
  }

  method VerifySnapshot(env: Env, backup: Tree, rows: seq<Record>, database: string, trusted: string) returns (ok: bool)
    ensures ok <==> ManifestMatches(env, backup, rows, database, trusted, MANIFEST) && BlobsOk(env, backup, EntriesAt(env, backup, MANIFEST))
  {
    var checked := CheckedManifest(env, backup, rows, database, trusted, MANIFEST);
    if checked.None? {
      return false;
    }
    ok := VerifyBlobs(env, backup, checked.value);
  }

  /** Reads each blob once for each size it is expected to have. */
  method VerifyBlobs(env: Env, backup: Tree, entries: seq<Entry>) returns (ok: bool)
    ensures ok <==> BlobsOk(env, backup, entries)
  {
    var verified: set<(string, int)> := {};
    for i := 0 to |entries|
      invariant forall e :: e in entries[..i] ==> BlobOk(env, backup, e)
      invariant forall sha256, size :: (sha256, size) in verified ==>
                  exists e :: e in entries[..i] && e.sha256 == Some(sha256) && e.row.size == size
    {
      assert entries[..i + 1] == entries[..i] + [entries[i]];
      var e := entries[i];
      if e.sha256.Some? && (e.sha256.value, e.row.size) !in verified {
        if !BlobOk(env, backup, e) {
          assert e in entries;
          return false;
        }
        verified := verified + {(e.sha256.value, e.row.size)};
      }
    }
    assert entries[..|entries|] == entries;
    return true;
  }

  /* ---------- restoring ---------- */

  /** No restored name is a directory on the way to another. */
  predicate PrefixFree(entries: seq<Entry>) {
    forall e, f :: e in entries && f in entries ==> !Above(e.row.key, f.row.key)
  }

  /** Exactly the live content of the entries, and the directories of all of them. */
  ghost predicate Holding(backup: Tree, entries: seq<Entry>, tree: Tree) {
    && WellFormed(tree)
    && (forall p :: p in tree.files ==> exists e :: e in entries && e.sha256.Some? && e.row.key == p)
    && (forall e :: e in entries && e.sha256.Some? ==>
                      e.row.key in tree.files && BlobPath(e.sha256.value) in backup.files
                      && tree.files[e.row.key] == backup.files[BlobPath(e.sha256.value)])
    && (forall p :: p in tree.dirs <==> p == [] || exists e :: e in entries && Above(p, e.row.key))
  }

  /** Directories were created for an entry, and a file when it is live. */
  ghost predicate Extends(backup: Tree, e: Entry, tree: Tree, after: Tree) {
    && (forall p :: p in after.dirs <==> p in tree.dirs || Above(p, e.row.key))
    && after.files == if e.sha256.Some? && BlobPath(e.sha256.value) in backup.files
                      then tree.files[e.row.key := backup.files[BlobPath(e.sha256.value)]] else tree.files
  }

  lemma ExtendingHolds(backup: Tree, entries: seq<Entry>, e: Entry, tree: Tree, after: Tree)
    requires Holding(backup, entries, tree) && WellFormed(after) && Extends(backup, e, tree, after)
    requires e.sha256.Some? ==> BlobPath(e.sha256.value) in backup.files && e.row.key !in tree.files
    ensures Holding(backup, entries + [e], after)
  {
    assert forall f :: f in entries + [e] <==> f in entries || f == e;
  }

  /** An alias of content that is there already changes nothing. */
  lemma AliasHolds(backup: Tree, entries: seq<Entry>, e: Entry, tree: Tree)
    requires Holding(backup, entries, tree) && e.sha256.Some? && e.row.key in tree.files && DigestsAgree(entries + [e])
    ensures Holding(backup, entries + [e], tree)
  {
    assert forall f :: f in entries + [e] <==> f in entries || f == e;
    var f :| f in entries && f.sha256.Some? && f.row.key == e.row.key;
    assert f.sha256 == e.sha256;
  }

  /** A name that stands in the way is the name of an earlier entry. */
  lemma ConflictIsOverlap(backup: Tree, entries: seq<Entry>, e: Entry, tree: Tree)
    requires Holding(backup, entries, tree) && e.row.key != []
    requires (exists p :: p in tree.files && Above(p, e.row.key)) || e.row.key in tree.dirs
    ensures !PrefixFree(entries + [e])
  {
    assert forall f :: f in entries + [e] <==> f in entries || f == e;
    if e.row.key in tree.dirs {
      var f :| f in entries && Above(e.row.key, f.row.key);
    } else {
      var p :| p in tree.files && Above(p, e.row.key);
      var f :| f in entries && f.sha256.Some? && f.row.key == p;
    }
  }

  method RestoreEntry(env: Env, backup: Tree, e: Entry, tree: Tree, ghost entries: seq<Entry>) returns (ok: bool, after: Tree)
    requires Holding(backup, entries, tree) && e.row.key != [] && BlobOk(env, backup, e) && DigestsAgree(entries + [e])
    ensures ok ==> Holding(backup, entries + [e], after)
    ensures !ok ==> !PrefixFree(entries + [e]) && after == tree
  {
    AboveIsWithinParent(e.row.key);
    if e.sha256.None? {
      ok, after := MakeDirectories(tree, Parent(e.row.key));
      if ok {
        ExtendingHolds(backup, entries, e, tree, after);
      } else {
        ConflictIsOverlap(backup, entries, e, tree);
        after := tree;
      }
    } else if e.row.key in tree.files {
      AliasHolds(backup, entries, e, tree);
      ok, after := true, tree;
    } else {
      ok, after := WriteNew(tree, e.row.key, backup.files[BlobPath(e.sha256.value)]);
      if ok {
        ExtendingHolds(backup, entries, e, tree, after);
      } else {
        ConflictIsOverlap(backup, entries, e, tree);
        after := tree;
      }
    }
  }

  /** The tree has what the entry says: its content, or nothing. */
  predicate ContentOk(env: Env, tree: Tree, e: Entry) {
    if e.sha256.None? then Absent(tree, e.row.key)
    else e.row.key in tree.files && |tree.files[e.row.key]| == e.row.size <= MAX_ARTIFACT_BYTES
         && env.digest(tree.files[e.row.key]) == e.sha256.value
  }

  method VerifyContents(env: Env, tree: Tree, entries: seq<Entry>) returns (ok: bool)
    ensures ok <==> forall e :: e in entries ==> ContentOk(env, tree, e)
  {
    for i := 0 to |entries|
      invariant forall e :: e in entries[..i] ==> ContentOk(env, tree, e)
    {
      assert entries[..i + 1] == entries[..i] + [entries[i]];
      if !ContentOk(env, tree, entries[i]) {
        return false;
      }
    }
    assert entries[..|entries|] == entries;
    return true;
  }

  /** What was restored verifies exactly when no purged name became a directory. */
  lemma HeldVerifies(env: Env, backup: Tree, entries: seq<Entry>, tree: Tree)
    requires Holding(backup, entries, tree) && BlobsOk(env, backup, entries) && DigestsAgree(entries)
    requires forall e :: e in entries ==> e.row.key != []
    ensures PrefixFree(entries) <==> forall e :: e in entries ==> ContentOk(env, tree, e)
  {
    forall e | e in entries && PrefixFree(entries)
      ensures ContentOk(env, tree, e)
    {
      assert BlobOk(env, backup, e);
      if e.sha256.None? {
        assert Above(Parent(e.row.key), e.row.key);
      }
    }
    forall e, f | e in entries && f in entries && (forall g :: g in entries ==> ContentOk(env, tree, g))
      ensures !Above(e.row.key, f.row.key)
    {
      assert ContentOk(env, tree, e);
    }
  }

  method RestoreEntries(env: Env, backup: Tree, entries: seq<Entry>) returns (ok: bool, tree: Tree)
    requires BlobsOk(env, backup, entries) && DigestsAgree(entries) && forall e :: e in entries ==> e.row.key != []
    ensures ok <==> PrefixFree(entries)
    ensures exists done :: done <= entries && Holding(backup, done, tree)
    ensures ok ==> Holding(backup, entries, tree)
  {
    tree := EMPTY_ROOT;
    for i := 0 to |entries|
      invariant Holding(backup, entries[..i], tree)
    {
      assert entries[..i + 1] == entries[..i] + [entries[i]];
      assert forall e :: e in entries[..i + 1] ==> e in entries;
      var written: bool;
      written, tree := RestoreEntry(env, backup, entries[i], tree, entries[..i]);
      if !written {
        assert entries[..i] <= entries;
        return false, tree;
      }
    }
    assert entries[..|entries|] == entries;
    HeldVerifies(env, backup, entries, tree);
    ok := VerifyContents(env, tree, entries);
  }

  /** The restored root: the content of the entries, and the marker that completes it. */
  ghost predicate IsRestored(backup: Tree, entries: seq<Entry>, manifest: Bytes, tree: Tree) {
    && WellFormed(tree) && COMPLETE in tree.files && tree.files[COMPLETE] == manifest
    && Holding(backup, entries, tree.(files := tree.files - {COMPLETE}))
  }

  method PublishMarker(backup: Tree, ghost entries: seq<Entry>, tree: Tree, manifest: Bytes) returns (after: Tree)
    requires Holding(backup, entries, tree)
    requires COMPLETE !in tree.files && COMPLETE !in tree.dirs && forall p :: p in tree.files ==> !Above(p, COMPLETE)
    ensures IsRestored(backup, entries, manifest, after)
  {
    var published: bool;
    published, after := WriteNew(tree, COMPLETE, manifest);
    assert after.files - {COMPLETE} == tree.files;
    assert after.dirs == tree.dirs;
  }

  /** Verifies everything, restores into a new root, verifies again, and publishes the marker last. */
  method RestoreSnapshot(env: Env, backup: Tree, rows: seq<Record>, database: string, trusted: string, destination: Option<Tree>)
    returns (ok: bool, after: Option<Tree>)
    requires !env.canonical(MARKER)
    ensures ok <==> (destination.None? && ManifestMatches(env, backup, rows, database, trusted, MANIFEST)
                     && BlobsOk(env, backup, EntriesAt(env, backup, MANIFEST)) && PrefixFree(EntriesAt(env, backup, MANIFEST)))
    ensures ok ==> after.Some? && IsRestored(backup, EntriesAt(env, backup, MANIFEST), backup.files[MANIFEST], after.value)
    ensures ok ==> [".kelpie-artifact-restore.json"] in after.value.files
    ensures destination.Some? ==> after == destination
    ensures !ok && destination.None? && after.Some? ==> COMPLETE !in after.value.files
  {
    var verified := VerifySnapshot(env, backup, rows, database, trusted);
    if !verified || destination.Some? {
      return false, destination;
    }
    var entries := EntriesAt(env, backup, MANIFEST);
    KeysAreDeep(env, entries);
    var restored, tree := RestoreEntries(env, backup, entries);
    NoMarkerYet(env, backup, entries, tree);
    if !restored {
      return false, Some(tree);
    }
    tree := PublishMarker(backup, entries, tree, backup.files[MANIFEST]);
    return true, Some(tree);
  }

  /** Every key has its work and its class above it, and no work is called like the marker. */
  lemma KeysAreDeep(env: Env, entries: seq<Entry>)
    requires RowsOk(env, RowsOf(entries))
    ensures forall e :: e in entries ==> |e.row.key| >= 3 && env.canonical(e.row.key[0])
  {
    forall e | e in entries
      ensures |e.row.key| >= 3 && env.canonical(e.row.key[0])
    {
      var i :| 0 <= i < |entries| && entries[i] == e;
      assert RowsOf(entries)[i] in RowsOf(entries);
      assert RowOk(env, RowOf(e));
    }
  }

  lemma FirstPart(p: Path, q: Path)
    requires p != [] && q != [] && p[0] != q[0]
    ensures !Above(p, q)
  {
  }

  lemma NoMarkerYet(env: Env, backup: Tree, entries: seq<Entry>, tree: Tree)
    requires !env.canonical(MARKER) && (forall e :: e in entries ==> |e.row.key| >= 3 && env.canonical(e.row.key[0]))
    requires exists done :: done <= entries && Holding(backup, done, tree)
    ensures COMPLETE !in tree.files && COMPLETE !in tree.dirs && forall p :: p in tree.files ==> !Above(p, COMPLETE)
  {
    var done :| done <= entries && Holding(backup, done, tree);
    assert forall e :: e in done ==> e in entries;
    forall e | e in done
      ensures !Above(COMPLETE, e.row.key)
    {
      FirstPart(COMPLETE, e.row.key);
    }
  }

  /* ---------- the round trip ---------- */

  lemma RowsOfEntries(env: Env, root: Tree, rows: seq<Record>)
    ensures RowsOf(EntriesOf(env, root, rows)) == rows
  {
    assert forall i :: 0 <= i < |rows| ==> RowsOf(EntriesOf(env, root, rows))[i] == rows[i];
  }

  /** An entry of the snapshot is the entry of one of its rows. */
  lemma EntryIsOfRow(env: Env, root: Tree, rows: seq<Record>, e: Entry)
    requires e in EntriesOf(env, root, rows)
    ensures e.row in rows && e == EntryOf(env, root, e.row)
  {
  }

  lemma RowHasEntry(env: Env, root: Tree, rows: seq<Record>, r: Record)
    requires r in rows
    ensures EntryOf(env, root, r) in EntriesOf(env, root, rows)
  {
    var i :| 0 <= i < |rows| && rows[i] == r;
    assert EntriesOf(env, root, rows)[i] == EntryOf(env, root, r);
  }

  lemma CapturedEntriesAgree(env: Env, root: Tree, rows: seq<Record>)
    requires EnvOk(env) && RowsOk(env, rows)
    ensures EntriesOk(2, EntriesOf(env, root, rows))
  {
    forall e | e in EntriesOf(env, root, rows)
      ensures EntryOk(2, e)
    {
      EntryIsOfRow(env, root, rows, e);
    }
    forall e, f | e in EntriesOf(env, root, rows) && f in EntriesOf(env, root, rows) && e.row.key == f.row.key
      ensures e.sha256 == f.sha256
    {
      EntryIsOfRow(env, root, rows, e);
      EntryIsOfRow(env, root, rows, f);
      assert StateOf(e.row) == StateOf(f.row);
    }
  }

  /** The manifest of a created snapshot is accepted for the same rows in any order, at its own digest. */
  lemma ManifestIsAccepted(env: Env, root: Tree, rows: seq<Record>, again: seq<Record>, database: string, tree: Tree, path: Path)
    requires EnvOk(env) && Capturable(env, root, rows, database) && multiset(again) == multiset(rows)
    requires ReadsBack(env, ManifestOf(env, root, Sort(rows), database))
    requires path in tree.files && tree.files[path] == env.encode(ManifestOf(env, root, Sort(rows), database))
    ensures ManifestMatches(env, tree, again, database, env.digest(tree.files[path]), path)
    ensures EntriesAt(env, tree, path) == EntriesOf(env, root, Sort(rows))
  {
    SortKeeps(env, rows);
    RowsOkByContents(env, rows, again);
    SortIsCanonical(rows, again);
    SortKeeps(env, Sort(rows));
    SortedIsUnique(Sort(Sort(rows)), Sort(rows));
    RowsOfEntries(env, root, Sort(rows));
    CapturedEntriesAgree(env, root, Sort(rows));
    assert Hex64(env.digest(tree.files[path]));
  }

  /** Every blob of a created snapshot verifies. */
  lemma BlobsAreAccepted(env: Env, root: Tree, rows: seq<Record>, backup: Tree)
    requires EnvOk(env) && RowsOk(env, rows) && AllCaptured(root, rows) && HoldsBlobs(env, root, rows, backup.files - {MANIFEST})
    ensures BlobsOk(env, backup, EntriesOf(env, root, rows))
  {
    forall e | e in EntriesOf(env, root, rows)
      ensures BlobOk(env, backup, e)
    {
      EntryIsOfRow(env, root, rows, e);
      assert RowOk(env, e.row) && Captured(root, e.row);
    }
  }

  /** Keys that a tree holds, or holds nothing at, never overlap. */
  lemma KeysDoNotOverlap(env: Env, root: Tree, rows: seq<Record>)
    requires WellFormed(root) && RowsOk(env, rows) && AllCaptured(root, rows)
    ensures PrefixFree(EntriesOf(env, root, rows))
  {
    forall e, f | e in EntriesOf(env, root, rows) && f in EntriesOf(env, root, rows)
      ensures !Above(e.row.key, f.row.key)
    {
      EntryIsOfRow(env, root, rows, e);
      EntryIsOfRow(env, root, rows, f);
      assert RowOk(env, f.row);
      assert Captured(root, e.row) && Captured(root, f.row);
      assert Above(e.row.key, f.row.key) ==> Within(e.row.key, Parent(f.row.key));
    }
  }

  lemma BlobsAreHeld(env: Env, root: Tree, rows: seq<Record>, backup: Tree)
    requires RowsOk(env, rows) && NoCollisions(env.digest, LiveContents(root, rows))
    requires StoresBlobs(env, root, Sort(rows), backup.files - {MANIFEST})
    ensures HoldsBlobs(env, root, Sort(rows), backup.files - {MANIFEST})
  {
    SortKeeps(env, rows);
    assert LiveContents(root, Sort(rows)) == LiveContents(root, rows);
    StoredIsHeld(env, root, Sort(rows), backup.files - {MANIFEST});
  }

  /** A snapshot that was created is accepted, from any copy of the database, under its own digest; without colliding
      contents its blobs are too. */
  lemma SnapshotRestores(env: Env, root: Tree, rows: seq<Record>, again: seq<Record>, database: string, backup: Tree)
    requires EnvOk(env) && WellFormed(root) && Capturable(env, root, rows, database) && multiset(again) == multiset(rows)
    requires ReadsBack(env, ManifestOf(env, root, Sort(rows), database))
    requires IsBackup(env, root, Sort(rows), database, backup)
    ensures ManifestMatches(env, backup, again, database, env.digest(backup.files[MANIFEST]), MANIFEST)
    ensures EntriesAt(env, backup, MANIFEST) == EntriesOf(env, root, Sort(rows))
    ensures PrefixFree(EntriesAt(env, backup, MANIFEST))
    ensures NoCollisions(env.digest, LiveContents(root, rows)) ==> BlobsOk(env, backup, EntriesAt(env, backup, MANIFEST))
  {
    SortKeeps(env, rows);
    ManifestIsAccepted(env, root, rows, again, database, backup, MANIFEST);
    if NoCollisions(env.digest, LiveContents(root, rows)) {
      BlobsAreHeld(env, root, rows, backup);
      BlobsAreAccepted(env, root, Sort(rows), backup);
    }
    KeysDoNotOverlap(env, root, Sort(rows));
  }

  lemma SortedAlike(env: Env, rows: seq<Record>, others: seq<Record>)
    requires RowsOk(env, rows)
    ensures RowsOk(env, others) && Sort(others) == Sort(rows) <==> multiset(others) == multiset(rows)
  {
    SortMultiset(rows);
    SortMultiset(others);
    if multiset(others) == multiset(rows) {
      RowsOkByContents(env, rows, others);
      SortIsCanonical(rows, others);
    }
  }

  /** Entries of version 1 are live; a digest stands at every live entry and at no other, the same for the same key. */
  lemma EntriesAccepted(version: int, entries: seq<Entry>)
    ensures EntriesOk(version, entries) <==>
      && (forall e :: e in entries ==>
            && (e.retained <==> version == 2)
            && (e.sha256.Some? <==> !e.retained || e.row.expired.None?) && (e.sha256.Some? ==> Hex64(e.sha256.value)))
      && (forall e, f :: e in entries && f in entries && e.row.key == f.row.key ==> e.sha256 == f.sha256)
  {
  }

  /** Exactly which manifests are accepted: at most 16 MiB of the trusted digest, for this database, in version 1 or 2, with at
      most 10000 entries, which are in all the rows of the database. */
  lemma ManifestAccepted(env: Env, tree: Tree, rows: seq<Record>, database: string, trusted: string, path: Path)
    ensures ManifestMatches(env, tree, rows, database, trusted, path) <==>
      && RowsOk(env, rows) && Hex64(database) && Hex64(trusted)
      && path in tree.files && |tree.files[path]| <= 16777216 && env.digest(tree.files[path]) == trusted
      && env.decode(tree.files[path]).Some?
      && var manifest := env.decode(tree.files[path]).value;
         && manifest.version in {1, 2} && manifest.database == database && |manifest.entries| <= 10000
         && EntriesOk(manifest.version, manifest.entries)
         && multiset(RowsOf(manifest.entries)) == multiset(rows)
  {
    if RowsOk(env, rows) && path in tree.files && env.decode(tree.files[path]).Some? {
      SortedAlike(env, rows, RowsOf(env.decode(tree.files[path]).value.entries));
    }
  }

  /** What the two trees hold. */
  ghost function ContentsOf(backup: Tree, other: Tree): set<Bytes> {
    (set p | p in backup.files :: backup.files[p]) + (set p | p in other.files :: other.files[p])
  }

  /** A tree that is offered for a snapshot under its trusted digest, and whose blobs verify, has the manifest of the snapshot
      and the content of every live row, unless contents collide: nothing that was changed is restored. */
  lemma TamperingIsDetected(env: Env, root: Tree, rows: seq<Record>, database: string, backup: Tree, other: Tree, again: seq<Record>)
    requires EnvOk(env) && RowsOk(env, rows) && ReadsBack(env, ManifestOf(env, root, Sort(rows), database))
    requires IsBackup(env, root, Sort(rows), database, backup) && HoldsBlobs(env, root, Sort(rows), backup.files - {MANIFEST})
    requires ManifestMatches(env, other, again, database, env.digest(backup.files[MANIFEST]), MANIFEST)
    requires BlobsOk(env, other, EntriesAt(env, other, MANIFEST)) && NoCollisions(env.digest, ContentsOf(backup, other))
    ensures other.files[MANIFEST] == backup.files[MANIFEST]
    ensures forall r :: r in rows && Live(r) ==>
              var p := BlobPath(env.digest(Content(root, r))); p in other.files && other.files[p] == Content(root, r)
  {
    SortKeeps(env, rows);
    assert other.files[MANIFEST] == backup.files[MANIFEST];
    forall r | r in rows && Live(r)
      ensures var p := BlobPath(env.digest(Content(root, r))); p in other.files && other.files[p] == Content(root, r)
    {
      RowHasEntry(env, root, Sort(rows), r);
      assert BlobOk(env, other, EntryOf(env, root, r));
      var p := BlobPath(env.digest(Content(root, r)));
      assert (backup.files - {MANIFEST})[p] == backup.files[p];
    }
  }

  /** Same content where a row is live, and nothing, in a directory that exists, where it was purged. */
  ghost predicate SameArtifact(root: Tree, restored: Tree, r: Record) {
    if Live(r) then r.key in root.files && r.key in restored.files && restored.files[r.key] == root.files[r.key]
    else Absent(restored, r.key)
  }

  lemma RestoredRow(env: Env, root: Tree, rows: seq<Record>, backup: Tree, tree: Tree, r: Record)
    requires EnvOk(env) && WellFormed(root) && RowsOk(env, rows) && AllCaptured(root, rows) && r in rows
    requires HoldsBlobs(env, root, rows, backup.files - {MANIFEST}) && Holding(backup, EntriesOf(env, root, rows), tree)
    ensures SameArtifact(root, tree, r) && r.key != COMPLETE
  {
    var entries := EntriesOf(env, root, rows);
    RowHasEntry(env, root, rows, r);
    assert RowOk(env, r) && Captured(root, r);
    if !Live(r) {
      CapturedEntriesAgree(env, root, rows);
      BlobsAreAccepted(env, root, rows, backup);
      KeysDoNotOverlap(env, root, rows);
      forall e | e in entries
        ensures e.row.key != []
      {
        EntryIsOfRow(env, root, rows, e);
        assert RowOk(env, e.row);
      }
      HeldVerifies(env, backup, entries, tree);
      assert ContentOk(env, tree, EntryOf(env, root, r));
    }
  }

  /** The restored tree has every artifact exactly as it was, and nothing but artifacts and the marker. */
  lemma RestoredIsExact(env: Env, root: Tree, rows: seq<Record>, database: string, backup: Tree, restored: Tree)
    requires EnvOk(env) && WellFormed(root) && Capturable(env, root, rows, database)
    requires NoCollisions(env.digest, LiveContents(root, rows))
    requires IsBackup(env, root, Sort(rows), database, backup)
    requires IsRestored(backup, EntriesOf(env, root, Sort(rows)), backup.files[MANIFEST], restored)
    ensures forall r :: r in rows ==> SameArtifact(root, restored, r)
    ensures forall p :: p in restored.files && p != COMPLETE ==> exists r :: r in rows && Live(r) && r.key == p
  {
    SortKeeps(env, rows);
    BlobsAreHeld(env, root, rows, backup);
    var tree := restored.(files := restored.files - {COMPLETE});
    forall r | r in rows
      ensures SameArtifact(root, restored, r)
    {
      RestoredRow(env, root, Sort(rows), backup, tree, r);
    }
    forall p | p in restored.files && p != COMPLETE
      ensures exists r :: r in rows && Live(r) && r.key == p
    {
      assert p in tree.files;
      var e :| e in EntriesOf(env, root, Sort(rows)) && e.sha256.Some? && e.row.key == p;
      EntryIsOfRow(env, root, Sort(rows), e);
    }
  }

  /** A content that is restored for one row and read for another was the content of both. */
  lemma ExactMeansApart(env: Env, root: Tree, rows: seq<Record>, backup: Tree, restored: Tree)
    requires RowsOk(env, rows)
    requires MANIFEST in backup.files && IsRestored(backup, EntriesOf(env, root, Sort(rows)), backup.files[MANIFEST], restored)
    requires forall r :: r in rows ==> SameArtifact(root, restored, r)
    ensures NoCollisions(env.digest, LiveContents(root, rows))
  {
    SortKeeps(env, rows);
    forall r | r in rows && Live(r)
      ensures var p := BlobPath(env.digest(Content(root, r))); p in backup.files && backup.files[p] == Content(root, r)
    {
      RowHasEntry(env, root, Sort(rows), r);
      assert RowOk(env, r) && SameArtifact(root, restored, r);
      assert EntryOf(env, root, r).row.key != COMPLETE;
    }
  }

  /** Checks a restored root against its marker. */
  method VerifyRestored(env: Env, root: Tree, rows: seq<Record>, database: string, trusted: string) returns (ok: bool)
    ensures ok <==> (ManifestMatches(env, root, rows, database, trusted, COMPLETE)
                     && forall e :: e in EntriesAt(env, root, COMPLETE) ==> ContentOk(env, root, e))
  {
    var checked := CheckedManifest(env, root, rows, database, trusted, COMPLETE);
    if checked.None? {
      return false;
    }
    ok := VerifyContents(env, root, checked.value);
  }

  /** A restored root verifies on its own, under the digest of the snapshot it came from. */
  lemma RestoredVerifies(env: Env, root: Tree, rows: seq<Record>, again: seq<Record>, database: string, restored: Tree)
    requires EnvOk(env) && Capturable(env, root, rows, database) && multiset(again) == multiset(rows)
    requires ReadsBack(env, ManifestOf(env, root, Sort(rows), database))
    requires COMPLETE in restored.files && restored.files[COMPLETE] == env.encode(ManifestOf(env, root, Sort(rows), database))
    requires forall r :: r in rows ==> SameArtifact(root, restored, r)
    ensures ManifestMatches(env, restored, again, database, env.digest(restored.files[COMPLETE]), COMPLETE)
    ensures forall e :: e in EntriesAt(env, restored, COMPLETE) ==> ContentOk(env, restored, e)
  {
    ManifestIsAccepted(env, root, rows, again, database, restored, COMPLETE);
    SortKeeps(env, rows);
    forall e | e in EntriesOf(env, root, Sort(rows))
      ensures ContentOk(env, restored, e)
    {
      EntryIsOfRow(env, root, Sort(rows), e);
      assert RowOk(env, e.row) && SameArtifact(root, restored, e.row) && Captured(root, e.row);
    }
  }

  /** A root that verifies as the restoration of a snapshot has every artifact of it exactly, unless contents collide. */
  lemma VerifiedIsExact(env: Env, root: Tree, rows: seq<Record>, database: string, backup: Tree, other: Tree, again: seq<Record>)
    requires EnvOk(env) && RowsOk(env, rows) && ReadsBack(env, ManifestOf(env, root, Sort(rows), database))
    requires IsBackup(env, root, Sort(rows), database, backup) && HoldsBlobs(env, root, Sort(rows), backup.files - {MANIFEST})
    requires AllCaptured(root, rows)
    requires ManifestMatches(env, other, again, database, env.digest(backup.files[MANIFEST]), COMPLETE)
    requires forall e :: e in EntriesAt(env, other, COMPLETE) ==> ContentOk(env, other, e)
    requires NoCollisions(env.digest, ContentsOf(backup, other))
    ensures forall r :: r in rows ==> SameArtifact(root, other, r)
  {
    SortKeeps(env, rows);
    assert other.files[COMPLETE] == backup.files[MANIFEST];
    forall r | r in rows
      ensures SameArtifact(root, other, r)
    {
      RowHasEntry(env, root, Sort(rows), r);
      assert ContentOk(env, other, EntryOf(env, root, r)) && Captured(root, r);
      if Live(r) {
        var p := BlobPath(env.digest(Content(root, r)));
        assert (backup.files - {MANIFEST})[p] == backup.files[p];
      }
    }
  }

  /** What verifies in a restored root: content of its size, at most 10 MiB, and its digest where an entry names one, and
      otherwise no name where it was, in a directory that is there. */
  lemma ContentAccepted(env: Env, tree: Tree, e: Entry)
    ensures ContentOk(env, tree, e) <==>
      if e.sha256.Some?
      then e.row.key in tree.files && |tree.files[e.row.key]| == e.row.size && |tree.files[e.row.key]| <= 10485760
           && env.digest(tree.files[e.row.key]) == e.sha256.value
      else e.row.key != [] && e.row.key[..|e.row.key| - 1] in tree.dirs && e.row.key !in tree.files && e.row.key !in tree.dirs
  {
  }

  lemma SameEntries(env: Env, root: Tree, restored: Tree, rows: seq<Record>)
    requires forall r :: r in rows ==> SameArtifact(root, restored, r)
    ensures EntriesOf(env, restored, rows) == EntriesOf(env, root, rows)
  {
    forall i | 0 <= i < |rows|
      ensures EntryOf(env, restored, rows[i]) == EntryOf(env, root, rows[i])
    {
      assert SameArtifact(root, restored, rows[i]);
    }
  }

  /** The restored tree can be backed up again, and gives the very same manifest. */
  lemma RebackupIsTheSame(env: Env, root: Tree, rows: seq<Record>, again: seq<Record>, database: string, restored: Tree)
    requires EnvOk(env) && Capturable(env, root, rows, database) && multiset(again) == multiset(rows)
    requires forall r :: r in rows ==> SameArtifact(root, restored, r)
    ensures Capturable(env, restored, again, database)
    ensures ManifestOf(env, restored, Sort(again), database) == ManifestOf(env, root, Sort(rows), database)
  {
    SortKeeps(env, rows);
    RowsOkByContents(env, rows, again);
    SortIsCanonical(rows, again);
    SameEntries(env, root, restored, Sort(rows));
    forall r | r in again
      ensures Captured(restored, r)
    {
      assert r in multiset(rows);
      assert SameArtifact(root, restored, r) && Captured(root, r);
    }
  }

  /** A full drill: back up, restore from a copy of the database into a new root, verify it, and back it up again.
      Every artifact comes back as it was exactly when no two contents have the same digest. */
  method Drill(env: Env, root: Tree, rows: seq<Record>, again: seq<Record>, database: string)
    returns (created: bool, recovered: bool, restored: Option<Tree>, verified: bool, same: bool)
    requires EnvOk(env) && WellFormed(root) && multiset(again) == multiset(rows)
    requires ReadsBack(env, ManifestOf(env, root, Sort(rows), database))
    ensures created <==> Capturable(env, root, rows, database)
    ensures recovered ==> created && restored.Some?
    ensures created ==> (NoCollisions(env.digest, LiveContents(root, rows))
                         <==> recovered && forall r :: r in rows ==> SameArtifact(root, restored.value, r))
    ensures created && NoCollisions(env.digest, LiveContents(root, rows)) ==> verified && same
  {
    var backup: Option<Tree>;
    created, backup := CreateSnapshot(env, root, rows, database, None);
    if !created {
      return false, false, None, false, false;
    }
    var manifest := backup.value.files[MANIFEST];
    SnapshotRestores(env, root, rows, again, database, backup.value);
    recovered, restored := RestoreSnapshot(env, backup.value, again, database, env.digest(manifest), None);
    if !recovered {
      return true, false, restored, false, false;
    }
    if NoCollisions(env.digest, LiveContents(root, rows)) {
      RestoredIsExact(env, root, rows, database, backup.value, restored.value);
      RebackupIsTheSame(env, root, rows, again, database, restored.value);
      RestoredVerifies(env, root, rows, again, database, restored.value);
    } else if forall r :: r in rows ==> SameArtifact(root, restored.value, r) {
      ExactMeansApart(env, root, rows, backup.value, restored.value);
    }
    verified := VerifyRestored(env, restored.value, again, database, env.digest(manifest));
    var repeated, second := CreateSnapshot(env, restored.value, again, database, None);
    same := repeated && second.Some? && MANIFEST in second.value.files && second.value.files[MANIFEST] == manifest;
  }

  /* ---------- the assumptions can be met ---------- */

  const LIVE_KEY: Path := ["w1", "artifacts", "report"]
  const OTHER_KEY: Path := ["w1", "artifacts", "empty"]
  const PURGED_KEY: Path := ["w2", "artifacts", "trace"]
  const SEVEN: Bytes := [7]

  /** A tree with two contents, and the place of a third that was purged. */
  const EXAMPLE_ROOT := Tree(map[LIVE_KEY := SEVEN, OTHER_KEY := []], {[], ["w1"], ["w1", "artifacts"], ["w2"], ["w2", "artifacts"]})

  function LiveRow(id: string, key: Path, size: int): Record {
    Record(id, "w1", key, "log", "name", "text/plain", size, None, None, None, None)
  }

  function Digits(c: char): string {
    seq(64, _ => c)
  }

  /** Two live rows of one file, a live row of another one, and a purged row. */
  function ExampleRows(): seq<Record> {
    [LiveRow("a4", OTHER_KEY, 0), LiveRow("a2", LIVE_KEY, 1), LiveRow("a1", LIVE_KEY, 1),
     Record("a3", "w2", PURGED_KEY, "log", "name", "text/plain", 9, Some("t"), Some("t"), Some(30), Some(Digits('c')))]
  }

  function ExampleDigest(b: Bytes): string {
    if b == SEVEN then Digits('a') else Digits('b')
  }

  /** A codec that knows one manifest, and identifiers of two characters. */
  function ExampleEnv(manifest: Option<Manifest>): Env {
    Env(ExampleDigest, _ => [], _ => manifest, id => |id| == 2, _ => Some(0))
  }

  lemma ExampleTree()
    ensures WellFormed(EXAMPLE_ROOT)
  {
    forall p, q | (q in EXAMPLE_ROOT.files || q in EXAMPLE_ROOT.dirs) && Within(p, q)
      ensures p == q || p in EXAMPLE_ROOT.dirs
    {
      assert p == q[..|p|];
      assert |p| == 0 || |p| == 1 || |p| == 2 || |p| == 3;
      assert |p| == 1 ==> p == [q[0]];
      assert |p| == 2 ==> p == [q[0], q[1]];
    }
  }

  lemma ThreePartKey(r: Record)
    requires |r.key| == 3 && |r.key[0]| + |r.key[1]| + |r.key[2]| <= 1022 && r.key[0] == r.work && r.key[1] == "artifacts"
    requires PartOk(r.key[0]) && PartOk(r.key[1]) && PartOk(r.key[2])
    ensures KeyOk(r)
  {
    assert r.key[1..][1..] == [r.key[2]];
    assert KeyLength(r.key[1..]) == |r.key[1]| + 1 + KeyLength([r.key[2]]);
  }

  lemma LiveRowIsOk(manifest: Option<Manifest>, id: string, key: Path, size: int)
    requires |id| == 2 && 0 <= size <= 1 && key in {LIVE_KEY, OTHER_KEY}
    ensures RowOk(ExampleEnv(manifest), LiveRow(id, key, size))
  {
    ThreePartKey(LiveRow(id, key, size));
  }

  lemma ExampleRowsFit(manifest: Option<Manifest>)
    ensures forall r :: r in ExampleRows() ==> RowOk(ExampleEnv(manifest), r)
  {
    LiveRowIsOk(manifest, "a4", OTHER_KEY, 0);
    LiveRowIsOk(manifest, "a2", LIVE_KEY, 1);
    LiveRowIsOk(manifest, "a1", LIVE_KEY, 1);
    ThreePartKey(ExampleRows()[3]);
  }

  lemma ExampleIsCaptured()
    ensures AllCaptured(EXAMPLE_ROOT, ExampleRows())
  {
    assert LIVE_KEY[2][0] != OTHER_KEY[2][0] && PURGED_KEY[0][1] != OTHER_KEY[0][1] && PURGED_KEY[0][1] != LIVE_KEY[0][1];
    assert Parent(PURGED_KEY) == ["w2", "artifacts"];
    assert |PURGED_KEY| == 3 && forall p :: p in EXAMPLE_ROOT.dirs ==> |p| <= 2;
  }

  lemma ExampleRowsAgree()
    ensures Distinct(ExampleRows()) && AliasesAgree(ExampleRows())
  {
    var rows := ExampleRows();
    assert rows[0].id[1] == '4' && rows[1].id[1] == '2' && rows[2].id[1] == '1' && rows[3].id[1] == '3';
    assert LIVE_KEY[2][0] != OTHER_KEY[2][0] && PURGED_KEY[2][0] != OTHER_KEY[2][0] && LIVE_KEY[2][0] != PURGED_KEY[2][0];
  }

  lemma ExampleContents()
    ensures LiveContents(EXAMPLE_ROOT, ExampleRows()) == {SEVEN, []}
    ensures NoCollisions(ExampleDigest, {SEVEN, []})
  {
    var rows := ExampleRows();
    assert LIVE_KEY[2][0] != OTHER_KEY[2][0];
    assert Content(EXAMPLE_ROOT, rows[0]) == [] && Content(EXAMPLE_ROOT, rows[1]) == SEVEN == Content(EXAMPLE_ROOT, rows[2]);
    assert rows[0] in rows && rows[1] in rows && Live(rows[0]) && Live(rows[1]);
    assert Digits('a')[0] != Digits('b')[0];
  }

  /** The drill's assumptions hold, and a snapshot can be taken, for live, aliased and purged rows over two contents. */
  lemma DrillIsPossible() returns (env: Env)
    ensures EnvOk(env) && ReadsBack(env, ManifestOf(env, EXAMPLE_ROOT, Sort(ExampleRows()), Digits('d')))
    ensures WellFormed(EXAMPLE_ROOT) && Capturable(env, EXAMPLE_ROOT, ExampleRows(), Digits('d'))
    ensures LiveContents(EXAMPLE_ROOT, ExampleRows()) == {SEVEN, []}
    ensures NoCollisions(env.digest, LiveContents(EXAMPLE_ROOT, ExampleRows()))
  {
    var manifest := ManifestOf(ExampleEnv(None), EXAMPLE_ROOT, Sort(ExampleRows()), Digits('d'));
    env := ExampleEnv(Some(manifest));
    ExampleTree();
    ExampleRowsFit(Some(manifest));
    ExampleRowsAgree();
    ExampleIsCaptured();
    ExampleContents();
    assert ManifestOf(env, EXAMPLE_ROOT, Sort(ExampleRows()), Digits('d')) == manifest;
  }
}
