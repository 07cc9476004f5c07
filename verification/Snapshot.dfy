/**
 Offline snapshots of the artifact store (artifact_backup.py): a content-addressed copy of a file tree that
 must restore exactly.

 A tree maps paths, relative to its root, to file contents. Hashing, the manifest's text form and the
 reading of identifiers and timestamps are a parameter `Env`.
 */
module Snapshot {
  import opened Wrappers

  newtype Byte = x: int | 0 <= x < 256

  type Bytes = seq<Byte>

  type Path = seq<string>

  const MAX_ENTRIES := 10_000
  const MAX_MANIFEST_BYTES := 16 * 1024 * 1024
  const MAX_ARTIFACT_BYTES := 10 * 1024 * 1024
  const MANIFEST: Path := ["manifest.json"]
  const MARKER := ".kelpie-artifact-restore.json"
  const COMPLETE: Path := [MARKER]

  /* ---------- file trees ---------- */

  datatype Tree = Tree(files: map<Path, Bytes>, dirs: set<Path>)

  const EMPTY_ROOT := Tree(map[], {[]})

  function Parent(path: Path): Path
    requires path != []
  {
    path[..|path| - 1]
  }

  /** `p` is `q` or one of the directories above it. */
  predicate Within(p: Path, q: Path) {
    p <= q
  }

  /** `p` is one of the directories above `q`. */
  predicate Above(p: Path, q: Path) {
    p < q
  }

  /** Files and directories are in directories, and no name is both. */
  ghost predicate WellFormed(tree: Tree) {
    && [] in tree.dirs && [] !in tree.files && (forall p :: p in tree.files ==> p !in tree.dirs)
    && (forall p, q :: q in tree.files && Above(p, q) ==> p in tree.dirs)
    && (forall p, q :: q in tree.dirs && Within(p, q) ==> p in tree.dirs)
  }

  /** The name does not exist, but the directory it would be in does. */
  predicate Absent(tree: Tree, path: Path) {
    path != [] && Parent(path) in tree.dirs && path !in tree.files && path !in tree.dirs
  }

  lemma WithinNext(path: Path, i: nat)
    requires i < |path|
    ensures forall p :: Within(p, path[..i + 1]) <==> Within(p, path[..i]) || p == path[..i + 1]
  {
    assert path[..i + 1][..i] == path[..i];
    forall p | Within(p, path[..i + 1])
      ensures Within(p, path[..i]) || p == path[..i + 1]
    {
      assert |p| == i + 1 ==> p == path[..i + 1];
    }
  }

  /** Creates the missing directories of a path, one component at a time. */
  method MakeDirectories(tree: Tree, path: Path) returns (ok: bool, after: Tree)
    requires WellFormed(tree)
    ensures ok <==> forall p :: p in tree.files ==> !Within(p, path)
    ensures ok ==> after.files == tree.files && forall p :: p in after.dirs <==> p in tree.dirs || Within(p, path)
  {
    after := tree;
    for i := 0 to |path|
      invariant after.files == tree.files
      invariant forall p :: p in tree.files ==> !Within(p, path[..i])
      invariant forall p :: p in after.dirs <==> p in tree.dirs || Within(p, path[..i])
    {
      WithinNext(path, i);
      var next := path[..i + 1];
      if next in after.files {
        assert Within(next, path);
        return false, tree;
      }
      after := after.(dirs := after.dirs + {next});
    }
    assert path[..|path|] == path;
    return true, after;
  }

  lemma AboveIsWithinParent(path: Path)
    requires path != []
    ensures forall p :: Above(p, path) <==> Within(p, Parent(path))
  {
  }

  /** Writes a new file with its directories; never replaces anything. */
  method WriteNew(tree: Tree, path: Path, content: Bytes) returns (ok: bool, after: Tree)
    requires WellFormed(tree) && path != []
    ensures ok <==> (forall p :: p in tree.files ==> !Above(p, path)) && path !in tree.files && path !in tree.dirs
    ensures ok ==> WellFormed(after) && after.files == tree.files[path := content]
    ensures ok ==> forall p :: p in after.dirs <==> p in tree.dirs || Above(p, path)
  {
    AboveIsWithinParent(path);
    var made: bool;
    made, after := MakeDirectories(tree, Parent(path));
    if !made || path in after.files || path in after.dirs {
      return false, tree;
    }
    after := after.(files := after.files[path := content]);
    return true, after;
  }

  /* ---------- records ---------- */

  /** A row of the artifact table; the key is split at its slashes. */
  datatype Record = Record(id: string, work: string, key: Path, kind: string, name: string, contentType: string, size: int,
                           expired: Option<string>, purged: Option<string>, days: Option<int>, evidence: Option<string>)

  /** One entry of a manifest; entries of the first version have no retention fields. */
  datatype Entry = Entry(row: Record, retained: bool, sha256: Option<string>)

  datatype Manifest = Manifest(version: int, database: string, entries: seq<Entry>)

  /** Hashing, the manifest's text, and the canonical forms of identifiers and UTC timestamps. */
  datatype Env = Env(digest: Bytes -> string, encode: Manifest -> Bytes, decode: Bytes -> Option<Manifest>,
                     canonical: string -> bool, instant: string -> Option<int>)

  predicate Hex64(s: string) {
    |s| == 64 && forall i :: 0 <= i < 64 ==> '0' <= s[i] <= '9' || 'a' <= s[i] <= 'f'
  }

  /** No two of these contents have the same digest. */
  ghost predicate NoCollisions(digest: Bytes -> string, contents: set<Bytes>) {
    forall b, c :: b in contents && c in contents && digest(b) == digest(c) ==> b == c
  }

  /** Digests in hexadecimal, and identifiers that are no dot file. */
  ghost predicate EnvOk(env: Env) {
    (forall b :: Hex64(env.digest(b))) && !env.canonical(MARKER)
  }

  /** The text of the manifest decodes to it. */
  predicate ReadsBack(env: Env, manifest: Manifest) {
    env.decode(env.encode(manifest)) == Some(manifest)
  }

  predicate PartOk(part: string) {
    part != "" && part != "." && part != ".." && '\\' !in part && '\0' !in part
  }

  /** Characters of a key with its slashes. */
  function KeyLength(key: Path): nat {
    if |key| <= 1 then (if key == [] then 0 else |key[0]|) else |key[0]| + 1 + KeyLength(key[1..])
  }

  /** artifact_path accepts the key, within the limits of a snapshot. */
  predicate KeyOk(r: Record) {
    && 3 <= |r.key| <= 64 && KeyLength(r.key) <= 1024 && r.key[0] == r.work && r.key[1] == "artifacts"
    && forall i :: 0 <= i < |r.key| ==> PartOk(r.key[i])
  }

  predicate Live(r: Record) {
    r.expired.None?
  }

  /** Live, or completely purged with canonical evidence. */
  predicate RetentionOk(env: Env, r: Record) {
    || (r.expired.None? && r.purged.None? && r.days.None? && r.evidence.None?)
    || (&& r.expired.Some? && r.purged.Some? && r.days.Some? && r.evidence.Some?
        && env.instant(r.expired.value).Some? && env.instant(r.purged.value).Some?
        && env.instant(r.expired.value).value <= env.instant(r.purged.value).value
        && 1 <= r.days.value <= 36500 && Hex64(r.evidence.value))
  }

  predicate RowOk(env: Env, r: Record) {
    && env.canonical(r.id) && env.canonical(r.work) && KeyOk(r) && 0 <= r.size <= MAX_ARTIFACT_BYTES
    && |r.kind| <= 64 && |r.name| <= 255 && |r.contentType| <= 128 && RetentionOk(env, r)
  }

  lemma {:induction false} KeyLengthGrows(key: Path, part: string)
    ensures KeyLength(key + [part]) == if key == [] then |part| else KeyLength(key) + 1 + |part|
  {
    if |key| > 1 {
      KeyLengthGrows(key[1..], part);
      assert (key + [part])[1..] == key[1..] + [part];
    } else if |key| == 1 {
      assert (key + [part])[1..] == [part];
    }
  }

  /** Exactly which rows a snapshot takes: canonical identifiers, a key of 3 to 64 plain parts and at most 1024 characters under
      its work's artifacts, at most 10 MiB, bounded texts, and either no retention evidence or all of it, the purge not before
      the expiration, for 1 to 36500 days, under a SHA-256. */
  lemma RowAccepted(env: Env, r: Record)
    ensures RowOk(env, r) <==>
      && env.canonical(r.id) && env.canonical(r.work)
      && 3 <= |r.key| <= 64 && KeyLength(r.key) <= 1024 && r.key[0] == r.work && r.key[1] == "artifacts"
      && (forall i :: 0 <= i < |r.key| ==> r.key[i] !in {"", ".", ".."} && '\\' !in r.key[i] && '\0' !in r.key[i])
      && 0 <= r.size <= 10485760 && |r.kind| <= 64 && |r.name| <= 255 && |r.contentType| <= 128
      && (|| (r.expired.None? && r.purged.None? && r.days.None? && r.evidence.None?)
          || (&& r.expired.Some? && r.purged.Some? && r.days.Some? && r.evidence.Some?
              && env.instant(r.expired.value).Some? && env.instant(r.purged.value).Some?
              && env.instant(r.purged.value).value >= env.instant(r.expired.value).value
              && 1 <= r.days.value <= 36500
              && |r.evidence.value| == 64
              && (forall i :: 0 <= i < 64 ==> '0' <= r.evidence.value[i] <= '9' || 'a' <= r.evidence.value[i] <= 'f')))
  {
  }

  /** Exactly which sets of rows: at most 10000, of different identifiers, rows of one key with one size and one retention. */
  lemma RowsAccepted(env: Env, rows: seq<Record>)
    ensures RowsOk(env, rows) <==>
      && |rows| <= 10000 && (forall r :: r in rows ==> RowOk(env, r))
      && (forall i, j :: 0 <= i < j < |rows| ==> rows[i].id != rows[j].id)
      && (forall r, q :: r in rows && q in rows && r.key == q.key ==>
            r.size == q.size && r.expired == q.expired && r.purged == q.purged && r.days == q.days && r.evidence == q.evidence)
  {
  }

  /** What aliases of one file must agree on. */
  datatype State = State(size: int, expired: Option<string>, purged: Option<string>, days: Option<int>, evidence: Option<string>)

  function StateOf(r: Record): State {
    State(r.size, r.expired, r.purged, r.days, r.evidence)
  }

  predicate Distinct(rows: seq<Record>) {
    forall i, j :: 0 <= i < j < |rows| ==> rows[i].id != rows[j].id
  }

  predicate AliasesAgree(rows: seq<Record>) {
    forall r, q :: r in rows && q in rows && r.key == q.key ==> StateOf(r) == StateOf(q)
  }

  predicate RowsOk(env: Env, rows: seq<Record>) {
    && |rows| <= MAX_ENTRIES && (forall r :: r in rows ==> RowOk(env, r)) && Distinct(rows) && AliasesAgree(rows)
  }

  /* ---------- the order of records ---------- */

  /** Text order by characters. */
  predicate Less(a: string, b: string) {
    b != [] && (a == [] || a[0] < b[0] || (a[0] == b[0] && Less(a[1..], b[1..])))
  }

  lemma {:induction false} LessIsTotal(a: string, b: string)
    ensures Less(a, b) || Less(b, a) || a == b
  {
    if a != [] && b != [] && a[0] == b[0] {
      LessIsTotal(a[1..], b[1..]);
      assert a[1..] == b[1..] ==> a == [a[0]] + a[1..] == [b[0]] + b[1..] == b;
    }
  }

  lemma {:induction false} LessIsStrict(a: string, b: string)
    requires Less(a, b)
    ensures a != b && !Less(b, a)
  {
    if a != [] && a[0] == b[0] {
      LessIsStrict(a[1..], b[1..]);
    }
  }

  lemma {:induction false} LessIsTransitive(a: string, b: string, c: string)
    requires Less(a, b) && Less(b, c)
    ensures Less(a, c)
  {
    if a != [] && a[0] == b[0] == c[0] {
      LessIsTransitive(a[1..], b[1..], c[1..]);
    }
  }

  function Insert(r: Record, rows: seq<Record>): seq<Record> {
    if rows == [] || !Less(rows[0].id, r.id) then [r] + rows else [rows[0]] + Insert(r, rows[1..])
  }

  /** The records by identifier. */
  function Sort(rows: seq<Record>): seq<Record> {
    if rows == [] then [] else Insert(rows[0], Sort(rows[1..]))
  }

  ghost predicate Sorted(rows: seq<Record>) {
    forall i, j :: 0 <= i < j < |rows| ==> Less(rows[i].id, rows[j].id)
  }

  lemma {:induction false} InsertMultiset(r: Record, rows: seq<Record>)
    ensures multiset(Insert(r, rows)) == multiset([r] + rows)
  {
    if rows == [] || !Less(rows[0].id, r.id) {
    } else {
      InsertMultiset(r, rows[1..]);
      assert rows == [rows[0]] + rows[1..];
    }
  }

  lemma {:induction false} SortMultiset(rows: seq<Record>)
    ensures multiset(Sort(rows)) == multiset(rows)
  {
    if rows != [] {
      SortMultiset(rows[1..]);
      InsertMultiset(rows[0], Sort(rows[1..]));
      assert rows == [rows[0]] + rows[1..];
    }
  }

  lemma {:induction false} InsertSorts(r: Record, rows: seq<Record>)
    requires Sorted(rows) && forall i :: 0 <= i < |rows| ==> rows[i].id != r.id
    ensures Sorted(Insert(r, rows))
  {
    if rows == [] {
    } else if !Less(rows[0].id, r.id) {
      forall i | 0 <= i < |rows|
        ensures Less(r.id, rows[i].id)
      {
        LessIsTotal(r.id, rows[0].id);
        if i > 0 {
          LessIsTransitive(r.id, rows[0].id, rows[i].id);
        }
      }
    } else {
      InsertSorts(r, rows[1..]);
      InsertMultiset(r, rows[1..]);
      forall x | x in Insert(r, rows[1..])
        ensures Less(rows[0].id, x.id)
      {
        assert x in multiset([r] + rows[1..]);
      }
    }
  }

  lemma {:induction false} SortSorts(rows: seq<Record>)
    requires Distinct(rows)
    ensures Sorted(Sort(rows))
  {
    if rows != [] {
      SortSorts(rows[1..]);
      SortMultiset(rows[1..]);
      forall i | 0 <= i < |Sort(rows[1..])|
        ensures Sort(rows[1..])[i].id != rows[0].id
      {
        assert Sort(rows[1..])[i] in multiset(rows[1..]);
      }
      InsertSorts(rows[0], Sort(rows[1..]));
    }
  }

  /** Two sorted lists of the same records are the same list. */
  lemma {:induction false} SortedIsUnique(xs: seq<Record>, ys: seq<Record>)
    requires Sorted(xs) && Sorted(ys) && multiset(xs) == multiset(ys)
    ensures xs == ys
  {
    assert |multiset(xs)| == |xs| && |multiset(ys)| == |ys|;
    if xs != [] {
      SameFirst(xs, ys);
      WithoutFirst(xs);
      WithoutFirst(ys);
      SortedIsUnique(xs[1..], ys[1..]);
      assert xs == [xs[0]] + xs[1..] && ys == [ys[0]] + ys[1..];
    }
  }

  lemma WithoutFirst(xs: seq<Record>)
    requires xs != []
    ensures multiset(xs[1..]) == multiset(xs) - multiset{xs[0]}
  {
    assert xs == [xs[0]] + xs[1..];
  }

  lemma SameFirst(xs: seq<Record>, ys: seq<Record>)
    requires Sorted(xs) && Sorted(ys) && multiset(xs) == multiset(ys) && xs != [] && ys != []
    ensures xs[0] == ys[0]
  {
    assert xs[0] in multiset(ys) && ys[0] in multiset(xs);
    LessOrFirst(xs, ys[0]);
    LessOrFirst(ys, xs[0]);
    if xs[0] != ys[0] {
      LessIsStrict(xs[0].id, ys[0].id);
    }
  }

  lemma LessOrFirst(xs: seq<Record>, x: Record)
    requires Sorted(xs) && x in xs
    ensures x == xs[0] || Less(xs[0].id, x.id)
  {
  }

  /** The records of a database sort the same whatever order they were read in. */
  lemma SortIsCanonical(xs: seq<Record>, ys: seq<Record>)
    requires Distinct(xs) && Distinct(ys) && multiset(xs) == multiset(ys)
    ensures Sort(xs) == Sort(ys)
  {
    SortSorts(xs);
    SortSorts(ys);
    SortMultiset(xs);
    SortMultiset(ys);
    SortedIsUnique(Sort(xs), Sort(ys));
  }

  lemma {:induction false} DistinctCountsOnce(xs: seq<Record>, x: Record)
    requires Distinct(xs)
    ensures multiset(xs)[x] <= 1
  {
    if xs != [] {
      DistinctCountsOnce(xs[1..], x);
      assert xs == [xs[0]] + xs[1..];
      assert x == xs[0] ==> x !in xs[1..];
    }
  }

  lemma TwiceCountsTwice(xs: seq<Record>, i: nat, j: nat)
    requires i < j < |xs| && xs[i] == xs[j]
    ensures multiset(xs)[xs[i]] >= 2
  {
    assert xs == xs[..j] + [xs[j]] + xs[j + 1..];
    assert xs[i] in xs[..j];
  }

  lemma DistinctByContents(xs: seq<Record>, ys: seq<Record>)
    requires Distinct(xs) && multiset(xs) == multiset(ys)
    ensures Distinct(ys)
  {
    forall i, j | 0 <= i < j < |ys|
      ensures ys[i].id != ys[j].id
    {
      assert ys[i] in multiset(xs) && ys[j] in multiset(xs);
      DistinctCountsOnce(xs, ys[i]);
      if ys[i] == ys[j] {
        TwiceCountsTwice(ys, i, j);
      }
    }
  }

  lemma RowsOkByContents(env: Env, xs: seq<Record>, ys: seq<Record>)
    requires RowsOk(env, xs) && multiset(xs) == multiset(ys)
    ensures RowsOk(env, ys)
  {
    assert |multiset(xs)| == |xs| && |multiset(ys)| == |ys|;
    DistinctByContents(xs, ys);
    assert forall y :: y in ys ==> y in multiset(xs);
  }

  function Ids(rows: seq<Record>): set<string> {
    set r | r in rows :: r.id
  }

  /** What the next row must satisfy. */
  predicate Fits(env: Env, rows: seq<Record>, r: Record) {
    RowOk(env, r) && r.id !in Ids(rows) && forall q :: q in rows && q.key == r.key ==> StateOf(q) == StateOf(r)
  }

  lemma RowsOkNext(env: Env, rows: seq<Record>, r: Record)
    requires RowsOk(env, rows) && |rows| < MAX_ENTRIES
    ensures RowsOk(env, rows + [r]) <==> Fits(env, rows, r)
  {
    var more := rows + [r];
    assert r in more && forall q :: q in more <==> q in rows || q == r;
    assert more[|rows|] == r;
    assert forall i :: 0 <= i < |rows| ==> more[i] == rows[i] && rows[i].id in Ids(rows);
  }

  lemma NotOkPrefix(env: Env, rows: seq<Record>, i: nat)
    requires i <= |rows| && !RowsOk(env, rows[..i])
    ensures !RowsOk(env, rows)
  {
    if RowsOk(env, rows) {
      assert forall r :: r in rows[..i] ==> r in rows;
    }
  }

  /** The identifiers and the aliases seen so far. */
  ghost predicate Recorded(rows: seq<Record>, seen: set<string>, aliases: map<Path, State>) {
    && seen == Ids(rows)
    && (forall r :: r in rows ==> r.key in aliases && aliases[r.key] == StateOf(r))
    && (forall key :: key in aliases ==> exists r :: r in rows && r.key == key)
  }

  method CheckRow(env: Env, r: Record, seen: set<string>, aliases: map<Path, State>, ghost rows: seq<Record>)
    returns (ok: bool, ids: set<string>, states: map<Path, State>)
    requires Recorded(rows, seen, aliases)
    ensures ok <==> Fits(env, rows, r)
    ensures ok ==> Recorded(rows + [r], ids, states)
  {
    ids, states := seen, aliases;
    if r.id in seen || !RowOk(env, r) {
      return false, ids, states;
    }
    if r.key in aliases && aliases[r.key] != StateOf(r) {
      return false, ids, states;
    }
    return true, seen + {r.id}, aliases[r.key := StateOf(r)];
  }

  /** Checks the records of the database and sorts them. */
  method Records(env: Env, rows: seq<Record>) returns (sorted: Option<seq<Record>>)
    ensures sorted == if RowsOk(env, rows) then Some(Sort(rows)) else None
  {
    if |rows| > MAX_ENTRIES {
      return None;
    }
    var seen: set<string>, aliases: map<Path, State> := {}, map[];
    for i := 0 to |rows|
      invariant RowsOk(env, rows[..i]) && Recorded(rows[..i], seen, aliases)
    {
      var ok: bool;
      ok, seen, aliases := CheckRow(env, rows[i], seen, aliases, rows[..i]);
      assert rows[..i + 1] == rows[..i] + [rows[i]];
      RowsOkNext(env, rows[..i], rows[i]);
      if !ok {
        NotOkPrefix(env, rows, i + 1);
        return None;
      }
    }
    assert rows[..|rows|] == rows;
    return Some(Sort(rows));
  }

  /* ---------- creating a snapshot ---------- */

  /** The tree holds what the row says: its bytes, or nothing where they were. */
  predicate Captured(root: Tree, r: Record) {
    if Live(r) then r.key in root.files && |root.files[r.key]| == r.size else Absent(root, r.key)
  }

  /** A live row finds its file in its size, a purged one no name where its file was, in a directory that is there. */
  lemma CapturedExactly(root: Tree, r: Record)
    ensures Captured(root, r) <==>
      if r.expired.None? then r.key in root.files && |root.files[r.key]| == r.size
      else r.key != [] && r.key[..|r.key| - 1] in root.dirs && r.key !in root.files && r.key !in root.dirs
  {
  }

  predicate AllCaptured(root: Tree, rows: seq<Record>) {
    forall r :: r in rows ==> Captured(root, r)
  }

  function Content(root: Tree, r: Record): Bytes {
    if r.key in root.files then root.files[r.key] else []
  }

  function EntryOf(env: Env, root: Tree, r: Record): Entry {
    Entry(r, true, if Live(r) then Some(env.digest(Content(root, r))) else None)
  }

  function EntriesOf(env: Env, root: Tree, rows: seq<Record>): seq<Entry> {
    seq(|rows|, i requires 0 <= i < |rows| => EntryOf(env, root, rows[i]))
  }

  function ManifestOf(env: Env, root: Tree, rows: seq<Record>, database: string): Manifest {
    Manifest(2, database, EntriesOf(env, root, rows))
  }

  lemma EntriesGrow(env: Env, root: Tree, rows: seq<Record>, row: Record)
    ensures EntriesOf(env, root, rows + [row]) == EntriesOf(env, root, rows) + [EntryOf(env, root, row)]
  {
  }

  lemma CapturedGrows(root: Tree, rows: seq<Record>, i: nat)
    requires i < |rows|
    ensures AllCaptured(root, rows[..i + 1]) <==> AllCaptured(root, rows[..i]) && Captured(root, rows[i])
    ensures AllCaptured(root, rows) ==> AllCaptured(root, rows[..i + 1])
  {
    assert rows[..i + 1] == rows[..i] + [rows[i]];
    assert forall r :: r in rows[..i + 1] ==> r in rows;
    assert rows[i] in rows[..i + 1];
  }

  function BlobPath(sha256: string): Path {
    ["blobs", sha256]
  }

  /** The contents that a snapshot of the rows has to keep apart. */
  ghost function LiveContents(root: Tree, rows: seq<Record>): set<Bytes> {
    set r | r in rows && Live(r) :: Content(root, r)
  }

  /** One blob for each digest of the rows, with the bytes of a row of that digest. */
  ghost predicate StoresBlobs(env: Env, root: Tree, rows: seq<Record>, files: map<Path, Bytes>) {
    && (forall p :: p in files ==>
                      exists r :: r in rows && Live(r) && p == BlobPath(env.digest(Content(root, r))) && files[p] == Content(root, r))
    && (forall r :: r in rows && Live(r) ==> BlobPath(env.digest(Content(root, r))) in files)
  }

  /** Exactly the blobs of the rows, with the rows' bytes. */
  ghost predicate HoldsBlobs(env: Env, root: Tree, rows: seq<Record>, files: map<Path, Bytes>) {
    && (forall p :: p in files ==> exists r :: r in rows && Live(r) && p == BlobPath(env.digest(Content(root, r))))
    && (forall r :: r in rows && Live(r) ==>
                      BlobPath(env.digest(Content(root, r))) in files
                      && files[BlobPath(env.digest(Content(root, r)))] == Content(root, r))
  }

  /** One blob for each digest is the right one for every row exactly when no two contents of the rows collide. */
  lemma StoredIsHeld(env: Env, root: Tree, rows: seq<Record>, files: map<Path, Bytes>)
    requires StoresBlobs(env, root, rows, files)
    ensures HoldsBlobs(env, root, rows, files) <==> NoCollisions(env.digest, LiveContents(root, rows))
  {
    if NoCollisions(env.digest, LiveContents(root, rows)) {
      forall r | r in rows && Live(r)
        ensures files[BlobPath(env.digest(Content(root, r)))] == Content(root, r)
      {
        var p := BlobPath(env.digest(Content(root, r)));
        var q :| q in rows && Live(q) && p == BlobPath(env.digest(Content(root, q))) && files[p] == Content(root, q);
        assert p[1] == env.digest(Content(root, q)) == env.digest(Content(root, r));
        assert Content(root, q) in LiveContents(root, rows) && Content(root, r) in LiveContents(root, rows);
      }
    }
  }

  /** A purged row, and a row whose digest is there already, need no blob. */
  lemma BlobsStay(env: Env, root: Tree, rows: seq<Record>, row: Record, files: map<Path, Bytes>)
    requires StoresBlobs(env, root, rows, files) && (Live(row) ==> BlobPath(env.digest(Content(root, row))) in files)
    ensures StoresBlobs(env, root, rows + [row], files)
  {
    assert forall r :: r in rows ==> r in rows + [row];
  }

  lemma BlobsGrow(env: Env, root: Tree, rows: seq<Record>, row: Record, files: map<Path, Bytes>)
    requires StoresBlobs(env, root, rows, files) && Live(row) && BlobPath(env.digest(Content(root, row))) !in files
    ensures StoresBlobs(env, root, rows + [row], files[BlobPath(env.digest(Content(root, row))) := Content(root, row)])
  {
    assert row in rows + [row] && forall r :: r in rows ==> r in rows + [row];
  }

  /** A snapshot of these rows can be taken from this tree. */
  ghost predicate Capturable(env: Env, root: Tree, rows: seq<Record>, database: string) {
    && RowsOk(env, rows) && Hex64(database) && AllCaptured(root, rows)
    && |env.encode(ManifestOf(env, root, Sort(rows), database))| <= MAX_MANIFEST_BYTES
  }

  /** The complete snapshot of the sorted rows: one blob for each digest, and the manifest. */
  ghost predicate IsBackup(env: Env, root: Tree, rows: seq<Record>, database: string, backup: Tree) {
    && MANIFEST in backup.files && backup.files[MANIFEST] == env.encode(ManifestOf(env, root, rows, database))
    && StoresBlobs(env, root, rows, backup.files - {MANIFEST})
  }

  /** A backup under way: its blobs and nothing else. */
  ghost predicate Filling(backup: Tree, written: set<string>) {
    && WellFormed(backup)
    && (forall p :: p in backup.files ==> |p| == 2 && p == BlobPath(p[1]))
    && (forall p :: p in backup.dirs ==> p == [] || p == ["blobs"])
    && (forall sha256 :: sha256 in written <==> BlobPath(sha256) in backup.files)
  }

  method CopyBlob(backup: Tree, written: set<string>, sha256: string, content: Bytes) returns (after: Tree, now: set<string>)
    requires Filling(backup, written)
    ensures Filling(after, now)
    ensures after.files == if BlobPath(sha256) in backup.files then backup.files else backup.files[BlobPath(sha256) := content]
  {
    after, now := backup, written;
    if sha256 !in written {
      var ok: bool;
      ok, after := WriteNew(backup, BlobPath(sha256), content);
      now := written + {sha256};
    }
  }

  ghost predicate KeysRead(env: Env, root: Tree, keys: map<Path, string>) {
    forall k :: k in keys ==> k in root.files && keys[k] == env.digest(root.files[k])
  }

  /** Captures one row: nothing for purged content, its bytes for live content. */
  method CopyRow(env: Env, root: Tree, row: Record, backup: Tree, written: set<string>, keys: map<Path, string>,
                 ghost rows: seq<Record>)
    returns (ok: bool, after: Tree, now: set<string>, read: map<Path, string>, entry: Entry)
    requires row.size <= MAX_ARTIFACT_BYTES
    requires Filling(backup, written) && StoresBlobs(env, root, rows, backup.files) && KeysRead(env, root, keys)
    ensures ok <==> Captured(root, row)
    ensures Filling(after, now) && KeysRead(env, root, read)
    ensures ok ==> StoresBlobs(env, root, rows + [row], after.files) && entry == EntryOf(env, root, row)
  {
    after, now, read, entry := backup, written, keys, Entry(row, true, None);
    if !Live(row) {
      BlobsStay(env, root, rows, row, backup.files);
      ok := Absent(root, row.key);
      return;
    }
    if row.key !in root.files || |root.files[row.key]| > MAX_ARTIFACT_BYTES || |root.files[row.key]| != row.size {
      ok := false;
      return;
    }
    var content := root.files[row.key];
    var sha256 := env.digest(content);
    if row.key in keys && keys[row.key] != sha256 {
      assert false;
      ok := false;
      return;
    }
    if BlobPath(sha256) in backup.files {
      BlobsStay(env, root, rows, row, backup.files);
    } else {
      BlobsGrow(env, root, rows, row, backup.files);
    }
    after, now := CopyBlob(backup, written, sha256, content);
    ok, read, entry := true, keys[row.key := sha256], Entry(row, true, Some(sha256));
  }

  /** Copies the bytes of every live row, once for each content. */
  method CopyArtifacts(env: Env, root: Tree, rows: seq<Record>) returns (ok: bool, backup: Tree, entries: seq<Entry>)
    requires forall r :: r in rows ==> r.size <= MAX_ARTIFACT_BYTES
    ensures ok <==> AllCaptured(root, rows)
    ensures WellFormed(backup) && MANIFEST !in backup.files && MANIFEST !in backup.dirs
    ensures ok ==> entries == EntriesOf(env, root, rows) && StoresBlobs(env, root, rows, backup.files)
  {
    backup, entries := EMPTY_ROOT, [];
    var written: set<string>, keys: map<Path, string> := {}, map[];
    for i := 0 to |rows|
      invariant AllCaptured(root, rows[..i]) && entries == EntriesOf(env, root, rows[..i])
      invariant Filling(backup, written) && StoresBlobs(env, root, rows[..i], backup.files) && KeysRead(env, root, keys)
    {
      var entry: Entry;
      ok, backup, written, keys, entry := CopyRow(env, root, rows[i], backup, written, keys, rows[..i]);
      CapturedGrows(root, rows, i);
      if !ok {
        return false, backup, entries;
      }
      assert rows[..i + 1] == rows[..i] + [rows[i]];
      EntriesGrow(env, root, rows[..i], rows[i]);
      entries := entries + [entry];
    }
    assert rows[..|rows|] == rows;
    return true, backup, entries;
  }

  /** Refuses an existing destination, copies every artifact, and writes the manifest last. */
  method CreateSnapshot(env: Env, root: Tree, rows: seq<Record>, database: string, destination: Option<Tree>)
    returns (ok: bool, after: Option<Tree>)
    ensures ok <==> destination.None? && Capturable(env, root, rows, database)
    ensures ok ==> after.Some? && WellFormed(after.value) && IsBackup(env, root, Sort(rows), database, after.value)
    ensures ok ==> ["manifest.json"] in after.value.files
                   && forall p :: p in after.value.files ==> p == ["manifest.json"] || (|p| == 2 && p[0] == "blobs")
    ensures destination.Some? ==> after == destination
    ensures !ok && destination.None? && after.Some? ==> MANIFEST !in after.value.files
  {
    var sorted := Records(env, rows);
    if sorted.None? || !Hex64(database) || destination.Some? {
      return false, destination;
    }
    var expected := sorted.value;
    SortKeeps(env, rows);
    var copied, backup, entries := CopyArtifacts(env, root, expected);
    if !copied {
      return false, Some(backup);
    }
    var manifest := env.encode(Manifest(2, database, entries));
    if |manifest| > MAX_MANIFEST_BYTES {
      return false, Some(backup);
    }
    var blobs := backup.files;
    var published: bool;
    published, backup := WriteNew(backup, MANIFEST, manifest);
    assert backup.files - {MANIFEST} == blobs;
    return true, Some(backup);
  }

  lemma SortKeeps(env: Env, rows: seq<Record>)
    requires RowsOk(env, rows)
    ensures RowsOk(env, Sort(rows)) && Sorted(Sort(rows)) && multiset(Sort(rows)) == multiset(rows)
    ensures forall r :: r in Sort(rows) <==> r in rows
  {
    SortSorts(rows);
    SortMultiset(rows);
    RowsOkByContents(env, rows, Sort(rows));
    assert forall r :: r in Sort(rows) <==> r in multiset(rows);
  }
}
