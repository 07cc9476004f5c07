/**
 Removal of the current lease token and of explicit credential fields from accepted worker
 telemetry (apps/api/app/event_redaction.py and its Runner twin).

 Strings are rewritten by a leftmost, non-overlapping replacement; a JSON tree is rewritten
 recursively, and an object is rebuilt key by key, so that two keys that become equal collapse
 into the position of the first one with the value of the last one.
 */
module Redaction {

  const MASK: string := "[REDACTED]"
  const MASK_WORD: string := "REDACTED"

  /* ---------- strings ---------- */

  /** `p` stands in `s` at position `i`. */
  predicate At(s: string, i: int, p: string) {
    0 <= i && i + |p| <= |s| && s[i..i + |p|] == p
  }

  ghost predicate Occurs(p: string, s: string) {
    exists i :: At(s, i, p)
  }

  /** Replaces every leftmost non-overlapping occurrence of `pat` by the mask. */
  function Replace(s: string, pat: string): string
    requires pat != ""
    decreases |s|
  {
    if s == "" then s
    else if pat <= s then MASK + Replace(s[|pat|..], pat)
    else [s[0]] + Replace(s[1..], pat)
  }

  /** The stretches of `s` between the occurrences that `Replace` rewrites. */
  function Gaps(s: string, pat: string): (gaps: seq<string>)
    requires pat != ""
    ensures gaps != []
    decreases |s|
  {
    if s == "" then [""]
    else if pat <= s then [""] + Gaps(s[|pat|..], pat)
    else
      var rest := Gaps(s[1..], pat);
      [[s[0]] + rest[0]] + rest[1..]
  }

  function Join(gaps: seq<string>, glue: string): string
    requires gaps != []
  {
    if |gaps| == 1 then gaps[0] else gaps[0] + glue + Join(gaps[1..], glue)
  }

  /** Every glued-in `pat` is the first occurrence in what remains; the last gap has none. */
  ghost predicate Leftmost(gaps: seq<string>, pat: string) {
    && gaps != []
    && !Occurs(pat, gaps[|gaps| - 1])
    && forall k, i :: 0 <= k < |gaps| - 1 && i < |gaps[k]| ==> !At(gaps[k] + pat, i, pat)
  }

  lemma {:induction false} JoinCons(head: string, gaps: seq<string>, glue: string)
    requires gaps != []
    ensures Join([head] + gaps, glue) == head + glue + Join(gaps, glue)
  {
    assert ([head] + gaps)[1..] == gaps;
  }

  lemma {:induction false} JoinPrepend(c: string, gaps: seq<string>, glue: string)
    requires gaps != []
    ensures Join([c + gaps[0]] + gaps[1..], glue) == c + Join(gaps, glue)
  {
    if |gaps| > 1 {
      assert ([c + gaps[0]] + gaps[1..])[1..] == gaps[1..];
      assert (c + gaps[0]) + glue + Join(gaps[1..], glue) == c + (gaps[0] + glue + Join(gaps[1..], glue));
    }
  }

  lemma OccurrenceShifts(c: string, t: string, i: int, p: string)
    requires |c| <= i
    ensures At(c + t, i, p) <==> At(t, i - |c|, p)
  {
    if i + |p| <= |c + t| {
      assert (c + t)[i..i + |p|] == t[i - |c|..i - |c| + |p|];
    }
  }

  lemma OccurrenceInPrefix(a: string, b: string, pat: string)
    ensures At(a, 0, pat) ==> pat <= a + b
    ensures pat <= a + b && |pat| <= |a| ==> At(a, 0, pat)
  {
    if |pat| <= |a| {
      assert (a + b)[..|pat|] == a[0..|pat|];
    }
  }

  /** An empty gap in front: what follows starts with `pat`. */
  lemma LeftmostCons(rest: seq<string>, pat: string)
    requires rest != []
    ensures Leftmost([""] + rest, pat) <==> Leftmost(rest, pat)
  {
    var gaps := [""] + rest;
    assert forall k :: 0 <= k < |rest| ==> gaps[k + 1] == rest[k];
    assert forall k :: 1 <= k < |gaps| ==> gaps[k] == rest[k - 1];
  }

  /** A character in front moves every occurrence behind it. */
  lemma OccurrencesShift(c: char, t: string, pat: string)
    ensures forall i :: i >= 1 ==> (At([c] + t, i, pat) <==> At(t, i - 1, pat))
    ensures forall i :: At(t, i, pat) ==> At([c] + t, i + 1, pat)
  {
    forall i | i >= 1
      ensures At([c] + t, i, pat) <==> At(t, i - 1, pat)
    {
      OccurrenceShifts([c], t, i, pat);
    }
    forall i
      ensures At(t, i, pat) ==> At([c] + t, i + 1, pat)
    {
      if i >= 0 { OccurrenceShifts([c], t, i + 1, pat); }
    }
  }

  /** A character in front of which `pat` does not start belongs to the first gap. */
  lemma LeftmostExtends(c: char, rest: seq<string>, pat: string)
    requires pat != "" && rest != []
    ensures Leftmost([[c] + rest[0]] + rest[1..], pat)
       <==> Leftmost(rest, pat) && !(pat <= [c] + Join(rest, pat))
  {
    var gaps := [[c] + rest[0]] + rest[1..];
    assert forall k :: 1 <= k < |gaps| ==> gaps[k] == rest[k];
    if |rest| == 1 {
      OccurrenceInPrefix(gaps[0], "", pat);
      assert gaps[0] + "" == gaps[0];
      OccurrencesShift(c, rest[0], pat);
    } else {
      var tail := Join(rest[1..], pat);
      assert [c] + Join(rest, pat) == (gaps[0] + pat) + tail;
      OccurrenceInPrefix(gaps[0] + pat, tail, pat);
      assert gaps[0] + pat == [c] + (rest[0] + pat);
      OccurrencesShift(c, rest[0] + pat, pat);
    }
  }

  lemma {:induction false} GapsJoin(s: string, pat: string)
    requires pat != ""
    ensures Join(Gaps(s, pat), pat) == s
    ensures Join(Gaps(s, pat), MASK) == Replace(s, pat)
    decreases |s|
  {
    if s == "" {
    } else if pat <= s {
      var rest := Gaps(s[|pat|..], pat);
      GapsJoin(s[|pat|..], pat);
      JoinCons("", rest, pat);
      JoinCons("", rest, MASK);
      assert s == "" + pat + s[|pat|..];
      assert "" + MASK == MASK;
    } else {
      var rest := Gaps(s[1..], pat);
      GapsJoin(s[1..], pat);
      JoinPrepend([s[0]], rest, pat);
      JoinPrepend([s[0]], rest, MASK);
      assert s == [s[0]] + s[1..];
    }
  }

  lemma {:induction false} GapsAreLeftmost(s: string, pat: string)
    requires pat != ""
    ensures Leftmost(Gaps(s, pat), pat)
    decreases |s|
  {
    if s == "" {
    } else if pat <= s {
      GapsAreLeftmost(s[|pat|..], pat);
      LeftmostCons(Gaps(s[|pat|..], pat), pat);
    } else {
      GapsAreLeftmost(s[1..], pat);
      GapsJoin(s[1..], pat);
      assert s == [s[0]] + s[1..];
      LeftmostExtends(s[0], Gaps(s[1..], pat), pat);
    }
  }

  /** The gaps glued with `pat` are the input, glued with the mask they are the output. */
  lemma ReplaceDecomposes(s: string, pat: string)
    requires pat != ""
    ensures Leftmost(Gaps(s, pat), pat)
    ensures Join(Gaps(s, pat), pat) == s
    ensures Join(Gaps(s, pat), MASK) == Replace(s, pat)
  {
    GapsAreLeftmost(s, pat);
    GapsJoin(s, pat);
  }

  /** There is only one leftmost decomposition, so `Replace` is fixed by it. */
  lemma {:induction false} LeftmostIsUnique(gaps: seq<string>, s: string, pat: string)
    requires pat != "" && Leftmost(gaps, pat) && Join(gaps, pat) == s
    ensures gaps == Gaps(s, pat)
    decreases |s|
  {
    if gaps[0] == "" {
      if |gaps| > 1 {
        var rest := gaps[1..];
        assert gaps == [""] + rest;
        JoinCons("", rest, pat);
        LeftmostCons(rest, pat);
        assert s == pat + Join(rest, pat);
        LeftmostIsUnique(rest, s[|pat|..], pat);
      }
    } else {
      var c := gaps[0][0];
      var rest := [gaps[0][1..]] + gaps[1..];
      assert [c] + rest[0] == gaps[0];
      assert [[c] + rest[0]] + rest[1..] == gaps;
      JoinPrepend([c], rest, pat);
      LeftmostExtends(c, rest, pat);
      LeftmostIsUnique(rest, s[1..], pat);
    }
  }

  /* ---------- erasure in one string ---------- */

  predicate Bracketless(s: string) {
    '[' !in s && ']' !in s
  }

  /** As long as the output shows no bracket, it still is the input. */
  lemma {:induction false} PrefixKept(t: string, pat: string, k: nat)
    requires pat != "" && k <= |Replace(t, pat)|
    requires '[' !in Replace(t, pat)[..k]
    ensures k <= |t| && Replace(t, pat)[..k] == t[..k]
    decreases |t|
  {
    assert t != "" && pat <= t ==> Replace(t, pat)[0] == '[';
    if k > 0 && t != "" && !(pat <= t) {
      var tail := Replace(t[1..], pat);
      assert Replace(t, pat)[..k] == [t[0]] + tail[..k - 1];
      PrefixKept(t[1..], pat, k - 1);
    }
  }

  /** What occurs inside the mask or across one of its borders shows a bracket or is part of its word. */
  lemma InMask(pat: string, tail: string, i: nat)
    requires pat != "" && i < |MASK| && At(MASK + tail, i, pat)
    ensures !Bracketless(pat) || Occurs(pat, MASK_WORD)
  {
    var out := MASK + tail;
    assert forall j :: 0 <= j < |pat| ==> pat[j] == out[i..i + |pat|][j] == out[i + j];
    if i == 0 {
      assert pat[0] == '[';
    } else if i + |pat| <= 9 {
      assert out[i..i + |pat|] == MASK_WORD[i - 1..i - 1 + |pat|];
      assert At(MASK_WORD, i - 1, pat);
    } else {
      assert pat[9 - i] == out[9] == ']';
    }
  }

  /** An occurrence that starts at a kept character was there before. */
  lemma StartWasThere(c: char, t: string, pat: string)
    requires pat != "" && Bracketless(pat) && At([c] + Replace(t, pat), 0, pat)
    ensures pat <= [c] + t
  {
    var tail := Replace(t, pat);
    var k := |pat| - 1;
    assert pat == ([c] + tail)[..|pat|] == [c] + tail[..k];
    PrefixKept(t, pat, k);
    assert ([c] + t)[..|pat|] == [c] + t[..k];
  }

  /** The lease is gone, including occurrences that the replacement itself could have formed. */
  lemma {:induction false} ReplaceErases(s: string, pat: string)
    requires pat != "" && Bracketless(pat) && !Occurs(pat, MASK_WORD)
    ensures !Occurs(pat, Replace(s, pat))
    decreases |s|
  {
    if s == "" {
    } else if pat <= s {
      var tail := Replace(s[|pat|..], pat);
      ReplaceErases(s[|pat|..], pat);
      forall i ensures !At(Replace(s, pat), i, pat) {
        if i >= |MASK| {
          OccurrenceShifts(MASK, tail, i, pat);
        } else if At(MASK + tail, i, pat) {
          InMask(pat, tail, i);
        }
      }
    } else {
      var tail := Replace(s[1..], pat);
      assert s == [s[0]] + s[1..];
      ReplaceErases(s[1..], pat);
      forall i ensures !At(Replace(s, pat), i, pat) {
        if i >= 1 {
          OccurrenceShifts([s[0]], tail, i, pat);
        } else if At(Replace(s, pat), i, pat) {
          StartWasThere(s[0], s[1..], pat);
        }
      }
    }
  }

  lemma WholeBecomesMask(pat: string)
    requires pat != ""
    ensures Replace(pat, pat) == MASK
  {
    assert pat[|pat|..] == "";
    assert MASK + "" == MASK;
  }

  lemma MaskShowsWord(pat: string)
    requires Occurs(pat, MASK_WORD)
    ensures Occurs(pat, MASK)
  {
    var i :| At(MASK_WORD, i, pat);
    assert MASK[1..9] == MASK_WORD;
    assert MASK[i + 1..i + 1 + |pat|] == MASK[1..9][i..i + |pat|];
    assert At(MASK, i + 1, pat);
  }

  /** Exactly which bracket-free leases are erased from every string. */
  lemma ErasureCondition(pat: string)
    requires pat != "" && Bracketless(pat)
    ensures (forall s :: !Occurs(pat, Replace(s, pat))) <==> !Occurs(pat, MASK_WORD)
  {
    if Occurs(pat, MASK_WORD) {
      MaskShowsWord(pat);
      WholeBecomesMask(pat);
      assert exists s :: s == pat && Occurs(pat, Replace(s, pat));
    } else {
      forall s ensures !Occurs(pat, Replace(s, pat)) { ReplaceErases(s, pat); }
    }
  }

  lemma TailIsFree(s: string, pat: string)
    requires s != "" && !Occurs(pat, s)
    ensures !(pat <= s) && !Occurs(pat, s[1..])
  {
    assert pat <= s ==> At(s, 0, pat);
    forall i ensures !At(s[1..], i, pat) {
      if i >= 0 {
        assert s == [s[0]] + s[1..];
        OccurrenceShifts([s[0]], s[1..], i + 1, pat);
      }
    }
  }

  /** A string without the lease is kept as it is. */
  lemma {:induction false} ReplaceKeeps(s: string, pat: string)
    requires pat != "" && !Occurs(pat, s)
    ensures Replace(s, pat) == s
    decreases |s|
  {
    if s != "" {
      TailIsFree(s, pat);
      ReplaceKeeps(s[1..], pat);
    }
  }

  /** A string that lost an occurrence shows the opening bracket of the mask. */
  lemma {:induction false} ReplaceMarks(s: string, pat: string)
    requires pat != "" && Replace(s, pat) != s
    ensures '[' in Replace(s, pat)
    decreases |s|
  {
    if pat <= s {
      assert Replace(s, pat)[0] == '[';
    } else {
      assert s == [s[0]] + s[1..];
      ReplaceMarks(s[1..], pat);
    }
  }

  /** Tokens issued by a claim: 43 characters of the URL-safe alphabet (service.py:198). */
  predicate IssuedToken(token: string) {
    |token| == 43 && forall c :: c in token ==> UrlSafe(c)
  }

  predicate UrlSafe(c: char) {
    'a' <= c <= 'z' || 'A' <= c <= 'Z' || '0' <= c <= '9' || c == '-' || c == '_'
  }

  lemma IssuedTokenIsErasable(token: string)
    requires IssuedToken(token)
    ensures token != "" && Bracketless(token) && !Occurs(token, MASK_WORD)
  {
    assert |MASK_WORD| == 8;
    assert !UrlSafe('[') && !UrlSafe(']');
  }

  /* ---------- JSON trees ---------- */

  datatype Json =
    | Null
    | Bool(b: bool)
    | Num(n: real)
    | Str(s: string)
    | List(items: seq<Json>)
    | Obj(fields: seq<Field>)

  datatype Field = Field(key: string, value: Json)

  const CREDENTIAL_FIELDS: set<string> := {
    "token", "accesstoken", "refreshtoken", "idtoken", "sessiontoken",
    "authorization", "proxyauthorization", "cookie", "setcookie", "apikey",
    "secret", "clientsecret", "password", "passwd", "privatekey",
    "leasetoken", "xkelpielease", "kelpieleasetoken"
  }

  function Strip(s: string): string {
    if s == "" then ""
    else if s[0] == '_' || s[0] == '-' then Strip(s[1..])
    else [s[0]] + Strip(s[1..])
  }

  /** `lower` is the runtime's Unicode lower-case mapping. */
  predicate IsCredential(key: string, lower: string -> string) {
    Strip(lower(key)) in CREDENTIAL_FIELDS
  }

  function Scrub(s: string, lease: string): string {
    if lease == "" then s else Replace(s, lease)
  }

  /** Assignment to a dictionary key: an existing key keeps its place and gets the new value. */
  function Put(fields: seq<Field>, key: string, value: Json): seq<Field> {
    if fields == [] then [Field(key, value)]
    else if fields[0].key == key then [Field(key, value)] + fields[1..]
    else [fields[0]] + Put(fields[1..], key, value)
  }

  /** redact_worker_telemetry; an absent lease is the empty string. */
  function Redact(v: Json, lease: string, lower: string -> string): Json
    decreases v, 1
  {
    match v
    case Obj(fields) => Obj(RedactFields(fields, lease, lower))
    case List(items) => List(RedactItems(items, lease, lower))
    case Str(s) => Str(Scrub(s, lease))
    case Null => v
    case Bool(_) => v
    case Num(_) => v
  }

  function RedactItems(items: seq<Json>, lease: string, lower: string -> string): (out: seq<Json>)
    ensures |out| == |items|
    decreases items, 0
  {
    if items == [] then []
    else RedactItems(items[..|items| - 1], lease, lower) + [Redact(items[|items| - 1], lease, lower)]
  }

  function RedactValue(field: Field, lease: string, lower: string -> string): Json
    decreases field, 2
  {
    if IsCredential(field.key, lower) then Str(MASK) else Redact(field.value, lease, lower)
  }

  function RedactFields(fields: seq<Field>, lease: string, lower: string -> string): seq<Field>
    decreases fields, 0
  {
    if fields == [] then []
    else
      var last := fields[|fields| - 1];
      Put(RedactFields(fields[..|fields| - 1], lease, lower), Scrub(last.key, lease), RedactValue(last, lease, lower))
  }

  /* ---------- what a tree shows ---------- */

  /** Neither a key nor a string of the tree contains the lease. */
  ghost predicate LeaseFree(v: Json, lease: string) {
    match v
    case Obj(fields) => forall i :: 0 <= i < |fields| ==> !Occurs(lease, fields[i].key) && LeaseFree(fields[i].value, lease)
    case List(items) => forall i :: 0 <= i < |items| ==> LeaseFree(items[i], lease)
    case Str(s) => !Occurs(lease, s)
    case _ => true
  }

  /** Every field with a credential name holds the mask, at every depth. */
  ghost predicate CredentialsMasked(v: Json, lower: string -> string) {
    match v
    case Obj(fields) => forall i :: 0 <= i < |fields| ==>
      && (IsCredential(fields[i].key, lower) ==> fields[i].value == Str(MASK))
      && CredentialsMasked(fields[i].value, lower)
    case List(items) => forall i :: 0 <= i < |items| ==> CredentialsMasked(items[i], lower)
    case _ => true
  }

  ghost predicate UniqueKeys(fields: seq<Field>) {
    forall i, j :: 0 <= i < j < |fields| ==> fields[i].key != fields[j].key
  }

  /** A tree as a decoder builds it: no object repeats a key. */
  ghost predicate Dictionary(v: Json) {
    match v
    case Obj(fields) => UniqueKeys(fields) && forall i :: 0 <= i < |fields| ==> Dictionary(fields[i].value)
    case List(items) => forall i :: 0 <= i < |items| ==> Dictionary(items[i])
    case _ => true
  }

  /** The two trees differ at most in what their credential fields hold. */
  ghost predicate SameButCredentials(v: Json, w: Json, lower: string -> string) {
    match v
    case Obj(fields) =>
      && w.Obj? && |w.fields| == |fields|
      && forall i :: 0 <= i < |fields| ==>
        && fields[i].key == w.fields[i].key
        && (IsCredential(fields[i].key, lower) || SameButCredentials(fields[i].value, w.fields[i].value, lower))
    case List(items) =>
      && w.List? && |w.items| == |items|
      && forall i :: 0 <= i < |items| ==> SameButCredentials(items[i], w.items[i], lower)
    case _ => v == w
  }

  /** Lower-casing keeps an opening bracket; no letter maps to or from one. */
  ghost predicate KeepsBracket(lower: string -> string) {
    forall s: string :: '[' in s ==> '[' in lower(s)
  }

  /* ---------- dictionaries under assignment ---------- */

  /** Where the assignment puts the value, and that it changes nothing else. */
  lemma {:induction false} PutMeaning(fields: seq<Field>, key: string, value: Json) returns (at: nat)
    ensures at <= |fields|
    ensures forall i :: 0 <= i < at ==> fields[i].key != key
    ensures at < |fields| ==> fields[at].key == key && Put(fields, key, value) == fields[at := Field(key, value)]
    ensures at == |fields| ==> Put(fields, key, value) == fields + [Field(key, value)]
  {
    if fields == [] || fields[0].key == key {
      at := 0;
    } else {
      var sub := PutMeaning(fields[1..], key, value);
      at := sub + 1;
      assert fields == [fields[0]] + fields[1..];
    }
  }

  /** Assigning a key that is not there appends it. */
  lemma {:induction false} PutAppends(fields: seq<Field>, key: string, value: Json)
    requires forall i :: 0 <= i < |fields| ==> fields[i].key != key
    ensures Put(fields, key, value) == fields + [Field(key, value)]
  {
    if fields != [] {
      PutAppends(fields[1..], key, value);
      assert fields == [fields[0]] + fields[1..];
    }
  }

  lemma {:induction false} RedactedItem(items: seq<Json>, lease: string, lower: string -> string, i: nat)
    requires i < |items|
    ensures RedactItems(items, lease, lower)[i] == Redact(items[i], lease, lower)
  {
    if i < |items| - 1 {
      RedactedItem(items[..|items| - 1], lease, lower, i);
    }
  }

  /** Every field of the rewritten object comes from a field of the original one. */
  lemma {:induction false} RedactedField(fields: seq<Field>, lease: string, lower: string -> string, j: nat) returns (i: nat)
    requires j < |RedactFields(fields, lease, lower)|
    ensures i < |fields|
    ensures RedactFields(fields, lease, lower)[j].key == Scrub(fields[i].key, lease)
    ensures RedactFields(fields, lease, lower)[j].value == RedactValue(fields[i], lease, lower)
  {
    var front := fields[..|fields| - 1];
    var last := fields[|fields| - 1];
    FieldsUnique(front, lease, lower);
    var at := PutMeaning(RedactFields(front, lease, lower), Scrub(last.key, lease), RedactValue(last, lease, lower));
    if j == at {
      i := |fields| - 1;
    } else {
      i := RedactedField(front, lease, lower, j);
    }
  }

  lemma {:induction false} FieldsUnique(fields: seq<Field>, lease: string, lower: string -> string)
    ensures UniqueKeys(RedactFields(fields, lease, lower))
  {
    if fields != [] {
      var last := fields[|fields| - 1];
      FieldsUnique(fields[..|fields| - 1], lease, lower);
      var _ := PutMeaning(RedactFields(fields[..|fields| - 1], lease, lower), Scrub(last.key, lease), RedactValue(last, lease, lower));
    }
  }

  /* ---------- main results ---------- */

  /** No key and no string of the output contains the lease. */
  lemma {:induction false} LeaseErased(v: Json, lease: string, lower: string -> string)
    requires lease != "" && Bracketless(lease) && !Occurs(lease, MASK_WORD)
    ensures LeaseFree(Redact(v, lease, lower), lease)
    decreases v
  {
    match v
    case Obj(fields) =>
      var out := RedactFields(fields, lease, lower);
      forall j | 0 <= j < |out| ensures !Occurs(lease, out[j].key) && LeaseFree(out[j].value, lease) {
        var i := RedactedField(fields, lease, lower, j);
        ReplaceErases(fields[i].key, lease);
        if IsCredential(fields[i].key, lower) {
          MaskIsClean(lease);
        } else {
          LeaseErased(fields[i].value, lease, lower);
        }
      }
    case List(items) =>
      forall i | 0 <= i < |items| ensures LeaseFree(RedactItems(items, lease, lower)[i], lease) {
        RedactedItem(items, lease, lower, i);
        LeaseErased(items[i], lease, lower);
      }
    case Str(s) => ReplaceErases(s, lease);
    case _ =>
  }

  lemma MaskIsClean(lease: string)
    requires lease != "" && Bracketless(lease) && !Occurs(lease, MASK_WORD)
    ensures !Occurs(lease, MASK)
  {
    forall i ensures !At(MASK, i, lease) {
      assert MASK + "" == MASK;
      if At(MASK, i, lease) && i < |MASK| {
        InMask(lease, "", i);
      }
    }
  }

  /** A bracket-free lease disappears from every tree exactly when it is not part of the mask. */
  lemma TreeErasureCondition(lease: string, lower: string -> string)
    requires lease != "" && Bracketless(lease)
    ensures (forall v :: LeaseFree(Redact(v, lease, lower), lease)) <==> !Occurs(lease, MASK_WORD)
  {
    if Occurs(lease, MASK_WORD) {
      ErasureCondition(lease);
      var s :| Occurs(lease, Replace(s, lease));
      assert !LeaseFree(Redact(Str(s), lease, lower), lease);
    } else {
      forall v ensures LeaseFree(Redact(v, lease, lower), lease) { LeaseErased(v, lease, lower); }
    }
  }

  /** The output does not depend on what a credential field held: nothing of it survives. */
  lemma {:induction false} CredentialsDoNotMatter(v: Json, w: Json, lease: string, lower: string -> string)
    requires SameButCredentials(v, w, lower)
    ensures Redact(v, lease, lower) == Redact(w, lease, lower)
    decreases v, 1
  {
    match v
    case Obj(fields) => FieldCredentialsDoNotMatter(fields, w.fields, lease, lower);
    case List(items) =>
      forall i | 0 <= i < |items|
        ensures RedactItems(items, lease, lower)[i] == RedactItems(w.items, lease, lower)[i]
      {
        RedactedItem(items, lease, lower, i);
        RedactedItem(w.items, lease, lower, i);
        CredentialsDoNotMatter(items[i], w.items[i], lease, lower);
      }
    case _ =>
  }

  lemma {:induction false} FieldCredentialsDoNotMatter(fields: seq<Field>, others: seq<Field>, lease: string, lower: string -> string)
    requires |others| == |fields|
    requires forall i :: 0 <= i < |fields| ==>
      && fields[i].key == others[i].key
      && (IsCredential(fields[i].key, lower) || SameButCredentials(fields[i].value, others[i].value, lower))
    ensures RedactFields(fields, lease, lower) == RedactFields(others, lease, lower)
    decreases fields, 0
  {
    if fields != [] {
      var n := |fields| - 1;
      FieldCredentialsDoNotMatter(fields[..n], others[..n], lease, lower);
      if !IsCredential(fields[n].key, lower) {
        CredentialsDoNotMatter(fields[n].value, others[n].value, lease, lower);
      }
    }
  }

  /** A credential name in the output always guards the mask: a rewritten key cannot become one. */
  lemma {:induction false} CredentialsAreMasked(v: Json, lease: string, lower: string -> string)
    requires KeepsBracket(lower)
    ensures CredentialsMasked(Redact(v, lease, lower), lower)
    decreases v
  {
    match v
    case Obj(fields) =>
      var out := RedactFields(fields, lease, lower);
      forall j | 0 <= j < |out|
        ensures IsCredential(out[j].key, lower) ==> out[j].value == Str(MASK)
        ensures CredentialsMasked(out[j].value, lower)
      {
        var i := RedactedField(fields, lease, lower, j);
        if out[j].key != fields[i].key {
          ReplaceMarks(fields[i].key, lease);
          BracketIsNoCredential(out[j].key, lower);
        }
        if !IsCredential(fields[i].key, lower) {
          CredentialsAreMasked(fields[i].value, lease, lower);
        }
      }
    case List(items) =>
      forall i | 0 <= i < |items| ensures CredentialsMasked(RedactItems(items, lease, lower)[i], lower) {
        RedactedItem(items, lease, lower, i);
        CredentialsAreMasked(items[i], lease, lower);
      }
    case _ =>
  }

  lemma BracketIsNoCredential(key: string, lower: string -> string)
    requires KeepsBracket(lower) && '[' in key
    ensures !IsCredential(key, lower)
  {
    StripKeepsBracket(lower(key));
    forall name | name in CREDENTIAL_FIELDS ensures '[' !in name { }
  }

  lemma {:induction false} StripKeepsBracket(s: string)
    requires '[' in s
    ensures '[' in Strip(s)
  {
    assert s == [s[0]] + s[1..];
    if s[0] != '[' {
      StripKeepsBracket(s[1..]);
    }
  }

  /** A clean dictionary tree is returned unchanged. */
  lemma {:induction false} CleanIsKept(v: Json, lease: string, lower: string -> string)
    requires Clean(v, lease, lower)
    ensures Redact(v, lease, lower) == v
    decreases v, 1
  {
    match v
    case Obj(fields) => CleanFieldsAreKept(fields, lease, lower);
    case List(items) =>
      forall i | 0 <= i < |items| ensures RedactItems(items, lease, lower)[i] == items[i] {
        RedactedItem(items, lease, lower, i);
        CleanIsKept(items[i], lease, lower);
      }
    case Str(s) => if lease != "" { ReplaceKeeps(s, lease); }
    case _ =>
  }

  ghost predicate Clean(v: Json, lease: string, lower: string -> string) {
    Dictionary(v) && CredentialsMasked(v, lower) && (lease != "" ==> LeaseFree(v, lease))
  }

  lemma CleanFront(fields: seq<Field>, lease: string, lower: string -> string)
    requires fields != [] && Clean(Obj(fields), lease, lower)
    ensures var n := |fields| - 1;
      && Clean(Obj(fields[..n]), lease, lower) && Clean(fields[n].value, lease, lower)
      && (forall i :: 0 <= i < n ==> fields[i].key != fields[n].key)
      && (IsCredential(fields[n].key, lower) ==> fields[n].value == Str(MASK))
      && (lease != "" ==> !Occurs(lease, fields[n].key))
  {
  }

  lemma {:induction false} CleanFieldsAreKept(fields: seq<Field>, lease: string, lower: string -> string)
    requires Clean(Obj(fields), lease, lower)
    ensures RedactFields(fields, lease, lower) == fields
    decreases fields, 0
  {
    if fields != [] {
      var n := |fields| - 1;
      CleanFront(fields, lease, lower);
      CleanFieldsAreKept(fields[..n], lease, lower);
      if lease != "" { ReplaceKeeps(fields[n].key, lease); }
      CleanIsKept(fields[n].value, lease, lower);
      PutAppends(fields[..n], fields[n].key, fields[n].value);
      assert fields == fields[..n] + [fields[n]];
    }
  }

  lemma {:induction false} OutputIsDictionary(v: Json, lease: string, lower: string -> string)
    ensures Dictionary(Redact(v, lease, lower))
    decreases v
  {
    match v
    case Obj(fields) =>
      FieldsUnique(fields, lease, lower);
      var out := RedactFields(fields, lease, lower);
      forall j | 0 <= j < |out| ensures Dictionary(out[j].value) {
        var i := RedactedField(fields, lease, lower, j);
        OutputIsDictionary(fields[i].value, lease, lower);
      }
    case List(items) =>
      forall i | 0 <= i < |items| ensures Dictionary(RedactItems(items, lease, lower)[i]) {
        RedactedItem(items, lease, lower, i);
        OutputIsDictionary(items[i], lease, lower);
      }
    case _ =>
  }

  /** A second pass changes nothing: the API may redact what the Runner already redacted. */
  lemma RedactIsIdempotent(v: Json, lease: string, lower: string -> string)
    requires Bracketless(lease) && (lease != "" ==> !Occurs(lease, MASK_WORD)) && KeepsBracket(lower)
    ensures Redact(Redact(v, lease, lower), lease, lower) == Redact(v, lease, lower)
  {
    OutputIsDictionary(v, lease, lower);
    CredentialsAreMasked(v, lease, lower);
    if lease != "" { LeaseErased(v, lease, lower); }
    CleanIsKept(Redact(v, lease, lower), lease, lower);
  }

  /** An occurrence makes a replacement that is longer than its pattern change the string. */
  lemma {:induction false} ReplaceGrows(s: string, pat: string)
    requires pat != "" && |pat| < |MASK|
    ensures |Replace(s, pat)| >= |s|
    ensures Occurs(pat, s) ==> |Replace(s, pat)| > |s|
    decreases |s|
  {
    if s != "" {
      if pat <= s {
        ReplaceGrows(s[|pat|..], pat);
      } else {
        ReplaceGrows(s[1..], pat);
        if i :| At(s, i, pat) {
          assert i != 0;
          assert s == [s[0]] + s[1..];
          OccurrenceShifts([s[0]], s[1..], i, pat);
        }
      }
    }
  }

  /** Exactly which bracket-free leases leave every redacted tree as it is on a second pass. */
  lemma IdempotenceCondition(lease: string, lower: string -> string)
    requires Bracketless(lease) && KeepsBracket(lower)
    ensures (forall v :: Redact(Redact(v, lease, lower), lease, lower) == Redact(v, lease, lower))
            <==> lease == "" || !Occurs(lease, MASK_WORD)
  {
    if lease == "" || !Occurs(lease, MASK_WORD) {
      forall v ensures Redact(Redact(v, lease, lower), lease, lower) == Redact(v, lease, lower) {
        RedactIsIdempotent(v, lease, lower);
      }
    } else {
      WholeBecomesMask(lease);
      MaskShowsWord(lease);
      ReplaceGrows(MASK, lease);
      var v := Str(lease);
      assert Redact(v, lease, lower) == Str(MASK);
      assert Redact(Str(MASK), lease, lower) == Str(Replace(MASK, lease));
    }
  }

  /** Normalizing a key drops its dashes and underscores and nothing else. */
  lemma {:induction false} StripDrops(s: string, c: char, t: string)
    ensures Strip(s + [c] + t) == Strip(s) + (if c == '-' || c == '_' then "" else [c]) + Strip(t)
    decreases |s|
  {
    if s == "" {
      assert s + [c] + t == [c] + t;
      assert ([c] + t)[1..] == t;
    } else {
      StripDrops(s[1..], c, t);
      assert s + [c] + t == [s[0]] + (s[1..] + [c] + t);
    }
  }

  /** The normalized names of credentials. */
  lemma CredentialNames(key: string, lower: string -> string)
    ensures IsCredential(key, lower) <==> Strip(lower(key)) in {
      "token", "accesstoken", "refreshtoken", "idtoken", "sessiontoken", "authorization", "proxyauthorization",
      "cookie", "setcookie", "apikey", "secret", "clientsecret", "password", "passwd", "privatekey",
      "leasetoken", "xkelpielease", "kelpieleasetoken"}
  {
  }

  lemma OneField(field: Field, lease: string, lower: string -> string)
    ensures Redact(Obj([field]), lease, lower)
         == Obj([Field(Scrub(field.key, lease), if IsCredential(field.key, lower) then Str("[REDACTED]") else Redact(field.value, lease, lower))])
  {
    assert [field][..0] == [];
    assert RedactFields([], lease, lower) == [];
    assert RedactFields([field], lease, lower) == Put([], Scrub(field.key, lease), RedactValue(field, lease, lower));
  }

  /** For every token a claim can issue, redaction is complete and stable. */
  lemma IssuedTokensAreErased(v: Json, token: string, lower: string -> string)
    requires IssuedToken(token) && KeepsBracket(lower)
    ensures LeaseFree(Redact(v, token, lower), token)
    ensures CredentialsMasked(Redact(v, token, lower), lower)
    ensures Redact(Redact(v, token, lower), token, lower) == Redact(v, token, lower)
  {
    IssuedTokenIsErasable(token);
    LeaseErased(v, token, lower);
    CredentialsAreMasked(v, token, lower);
    RedactIsIdempotent(v, token, lower);
  }
}
