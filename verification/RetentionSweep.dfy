/**
 The paged sweep over all artifacts (artifact_retention_job.py, artifact_retention_admin.py): any number of
 schedulers share one checkpoint that is advanced by compare-and-swap.

 Artifacts in the scope of the sweep are identified by numbers in the order of their identifiers.
 */
module RetentionSweep {
  import opened Wrappers

  datatype Outcome = Purged | AlreadyPurged | Eligible | Protected | Failed

  ghost predicate Ascending(ids: seq<nat>) {
    forall i, j :: 0 <= i < j < |ids| ==> ids[i] < ids[j]
  }

  predicate After(cursor: Option<nat>, id: nat) {
    cursor.None? || cursor.value < id
  }

  /** The query of a page: the unpurged artifacts after the cursor in order, one more than fit the page. */
  function Query(ids: seq<nat>, cursor: Option<nat>, n: nat): (r: seq<nat>)
    ensures |r| <= n && forall id :: id in r ==> id in ids && After(cursor, id)
  {
    if n == 0 || ids == [] then []
    else if After(cursor, ids[0]) then [ids[0]] + Query(ids[1..], cursor, n - 1)
    else Query(ids[1..], cursor, n)
  }

  datatype Page = Page(ids: seq<nat>, next: Option<nat>)

  function PageOf(identities: seq<nat>, limit: nat): Page
    requires limit >= 1
  {
    if |identities| > limit then Page(identities[..limit], Some(identities[limit - 1])) else Page(identities, None)
  }

  predicate InRange(id: nat, cursor: Option<nat>, next: Option<nat>) {
    After(cursor, id) && (next.None? || id <= next.value)
  }

  lemma AscendingFrom(first: nat, rest: seq<nat>)
    requires Ascending(rest) && forall id :: id in rest ==> first < id
    ensures Ascending([first] + rest)
  {
    var all := [first] + rest;
    forall i, j | 0 <= i < j < |all|
      ensures all[i] < all[j]
    {
      assert all[j] == rest[j - 1] && rest[j - 1] in rest;
      assert i > 0 ==> all[i] == rest[i - 1];
    }
  }

  lemma {:induction false} QueryAscends(ids: seq<nat>, cursor: Option<nat>, n: nat)
    requires Ascending(ids)
    ensures Ascending(Query(ids, cursor, n))
  {
    if n > 0 && ids != [] {
      if After(cursor, ids[0]) {
        QueryAscends(ids[1..], cursor, n - 1);
        AscendingFrom(ids[0], Query(ids[1..], cursor, n - 1));
      } else {
        QueryAscends(ids[1..], cursor, n);
      }
    }
  }

  /** The query leaves out an artifact after the cursor only when it is full of earlier ones. */
  lemma {:induction false} QueryIsComplete(ids: seq<nat>, cursor: Option<nat>, n: nat, id: nat)
    requires Ascending(ids) && id in ids && After(cursor, id)
    ensures id in Query(ids, cursor, n) || (|Query(ids, cursor, n)| == n && forall x :: x in Query(ids, cursor, n) ==> x < id)
  {
    if n > 0 {
      if id == ids[0] {
      } else {
        assert id in ids[1..];
        QueryIsComplete(ids[1..], cursor, if After(cursor, ids[0]) then n - 1 else n, id);
      }
    }
  }

  lemma PageHolds(identities: seq<nat>, limit: nat, id: nat)
    requires Ascending(identities) && 1 <= limit && |identities| <= limit + 1
    requires id in identities || (|identities| == limit + 1 && forall x :: x in identities ==> x < id)
    ensures (PageOf(identities, limit).next.None? || id <= PageOf(identities, limit).next.value) ==> id in PageOf(identities, limit).ids
  {
    if |identities| > limit {
      assert identities[limit - 1] in identities;
      if id in identities {
        var k :| 0 <= k < |identities| && identities[k] == id;
        assert k < limit ==> identities[..limit][k] == id;
        assert k == limit ==> identities[limit - 1] < id;
      }
    }
  }

  /** A page holds every artifact between its cursor and the next one. */
  lemma PageIsComplete(ids: seq<nat>, cursor: Option<nat>, limit: nat, id: nat)
    requires Ascending(ids) && id in ids && limit >= 1
    ensures InRange(id, cursor, PageOf(Query(ids, cursor, limit + 1), limit).next) ==> id in PageOf(Query(ids, cursor, limit + 1), limit).ids
  {
    if After(cursor, id) {
      QueryIsComplete(ids, cursor, limit + 1, id);
      QueryAscends(ids, cursor, limit + 1);
      PageHolds(Query(ids, cursor, limit + 1), limit, id);
    }
  }

  /** A page goes on behind its cursor, is no longer than its limit, and names a next cursor exactly when something remains behind it. */
  lemma PageMovesOn(ids: seq<nat>, cursor: Option<nat>, limit: nat)
    requires Ascending(ids) && limit >= 1
    ensures var page := PageOf(Query(ids, cursor, limit + 1), limit);
            && |page.ids| <= limit
            && (forall id :: id in page.ids ==> id in ids && (cursor.Some? ==> cursor.value < id))
            && (page.next.Some? ==> page.next.value in page.ids && exists id :: id in ids && page.next.value < id)
            && (page.next.None? ==> forall id :: id in ids && (cursor.Some? ==> cursor.value < id) ==> id in page.ids)
  {
    var found := Query(ids, cursor, limit + 1);
    var page := PageOf(found, limit);
    QueryAscends(ids, cursor, limit + 1);
    PageIsPart(found, limit);
    if page.next.Some? {
      assert found[limit] in ids && page.next.value < found[limit];
    } else {
      forall id | id in ids && (cursor.Some? ==> cursor.value < id)
        ensures id in page.ids
      {
        PageIsComplete(ids, cursor, limit, id);
      }
    }
  }

  lemma PageIsPart(found: seq<nat>, limit: nat)
    requires Ascending(found) && limit >= 1
    ensures var page := PageOf(found, limit);
            && |page.ids| <= limit && (forall id :: id in page.ids ==> id in found)
            && (page.next.Some? ==> |found| > limit && page.next.value == page.ids[|page.ids| - 1] && page.next.value < found[limit] && found[limit] in found)
            && (page.next.None? ==> |found| <= limit)
  {
  }

  /** One pass over a page; `outcome` is what each expiration answers. */
  method RunBatch(ids: seq<nat>, cursor: Option<nat>, limit: nat, outcome: nat -> Outcome) returns (page: Page,
                  failed: nat, purged: nat)
    requires limit >= 1
    ensures page == PageOf(Query(ids, cursor, limit + 1), limit)
    ensures failed == 0 <==> forall id :: id in page.ids ==> outcome(id) != Failed
    ensures failed + purged <= |page.ids|
    ensures purged == |page.ids| <==> forall id :: id in page.ids ==> outcome(id) == Purged
  {
    var identities := Query(ids, cursor, limit + 1);
    page := if |identities| > limit then Page(identities[..limit], Some(identities[limit - 1])) else Page(identities, None);
    failed, purged := 0, 0;
    for i := 0 to |page.ids|
      invariant failed == 0 <==> forall j :: 0 <= j < i ==> outcome(page.ids[j]) != Failed
      invariant failed + purged <= i
      invariant purged == i <==> forall j :: 0 <= j < i ==> outcome(page.ids[j]) == Purged
    {
      match outcome(page.ids[i]) {
        case Failed => failed := failed + 1;
        case Purged => purged := purged + 1;
        case _ =>
      }
    }
  }

  /* ---------- the shared checkpoint ---------- */

  class Checkpoint {
    var cursor: Option<nat>
    var version: nat
    var sweeps: nat

    constructor ()
      ensures cursor == None && version == 1 && sweeps == 0
    {
      cursor, version, sweeps := None, 1, 0;
    }

    /** Saves only over the version that was loaded. */
    method Save(loaded: nat, next: Option<nat>) returns (saved: bool)
      modifies this
      ensures saved <==> old(version) == loaded
      ensures saved ==> cursor == next && version == loaded + 1 && sweeps == old(sweeps) + (if next.None? then 1 else 0)
      ensures !saved ==> cursor == old(cursor) && version == old(version) && sweeps == old(sweeps)
    {
      if version != loaded {
        return false;
      }
      cursor, version := next, loaded + 1;
      if next.None? {
        sweeps := sweeps + 1;
      }
      return true;
    }
  }

  /* ---------- concurrent schedulers ---------- */

  /** A scheduler after it loaded the checkpoint, and while it works through its page. */
  datatype Job = Loaded(cursor: Option<nat>, version: nat) | Working(cursor: Option<nat>, version: nat, page: Page, done: nat, failed: bool)

  /** `ids` are the unpurged artifacts in scope. */
  datatype State = State(ids: seq<nat>, cursor: Option<nat>, version: nat, jobs: map<nat, Job>)

  datatype Action =
    | Load(j: nat)
    | Read(j: nat, limit: nat)
    | Expire(j: nat, outcome: Outcome)
    | Save(j: nat)
    | Die(j: nat)
    | Change(ids: seq<nat>)

  /** The page that this step saves, if it does: all of it was worked through, without a failure, and nobody saved since it was loaded. */
  function SavedPage(s: State, action: Action): Option<Page> {
    if action.Save? && action.j in s.jobs && s.jobs[action.j].Working? && s.jobs[action.j].done >= |s.jobs[action.j].page.ids|
       && !s.jobs[action.j].failed && s.jobs[action.j].version == s.version
    then Some(s.jobs[action.j].page) else None
  }

  /** This step completes a sweep. */
  predicate Completes(s: State, action: Action) {
    SavedPage(s, action).Some? && SavedPage(s, action).value.next.None?
  }

  function Step(s: State, action: Action): State {
    match action
    case Load(j) => s.(jobs := s.jobs[j := Loaded(s.cursor, s.version)])
    case Read(j, limit) =>
      if j in s.jobs && s.jobs[j].Loaded? && 1 <= limit <= 1000
      then s.(jobs := s.jobs[j := Working(s.jobs[j].cursor, s.jobs[j].version,
                                         PageOf(Query(s.ids, s.jobs[j].cursor, limit + 1), limit), 0, false)])
      else s
    case Expire(j, outcome) =>
      if j in s.jobs && s.jobs[j].Working? && s.jobs[j].done < |s.jobs[j].page.ids|
      then s.(jobs := s.jobs[j := s.jobs[j].(done := s.jobs[j].done + 1, failed := s.jobs[j].failed || outcome == Failed)])
      else s
    case Save(j) =>
      var page := SavedPage(s, action);
      if page.Some? then s.(cursor := page.value.next, version := s.version + 1, jobs := s.jobs - {j}) else s.(jobs := s.jobs - {j})
    case Die(j) => s.(jobs := s.jobs - {j})
    case Change(ids) => s.(ids := ids)
  }

  function Run(s: State, actions: seq<Action>): State {
    if actions == [] then s else Step(Run(s, actions[..|actions| - 1]), actions[|actions| - 1])
  }

  /** Pages of 1 to 1000 artifacts are read, and no others. */
  lemma ReadAccepted(s: State, j: nat, limit: nat)
    requires j in s.jobs && s.jobs[j].Loaded?
    ensures Step(s, Read(j, limit)) != s <==> 1 <= limit <= 1000
  {
    assert Step(s, Read(j, limit)) != s <==> Step(s, Read(j, limit)).jobs != s.jobs;
    if 1 <= limit <= 1000 {
      assert Step(s, Read(j, limit)).jobs[j].Working?;
    }
  }

  /** Artifacts come and go, always listed in order. */
  ghost predicate Orderly(actions: seq<Action>) {
    forall k :: 0 <= k < |actions| && actions[k].Change? ==> Ascending(actions[k].ids)
  }

  /** Checkpoints never run ahead of the shared one, and the current ones agree with it. */
  ghost predicate Inv(s: State) {
    && Ascending(s.ids)
    && forall j :: j in s.jobs ==> s.jobs[j].version <= s.version && (s.jobs[j].version == s.version ==> s.jobs[j].cursor == s.cursor)
  }

  lemma StepKeeps(s: State, action: Action)
    requires Inv(s) && (action.Change? ==> Ascending(action.ids))
    ensures Inv(Step(s, action))
  {
  }

  lemma {:induction false} RunKeeps(s: State, actions: seq<Action>)
    requires Inv(s) && Orderly(actions)
    ensures Inv(Run(s, actions))
  {
    if actions != [] {
      RunKeeps(s, actions[..|actions| - 1]);
      StepKeeps(Run(s, actions[..|actions| - 1]), actions[|actions| - 1]);
    }
  }

  /** The artifact was there, unpurged, in every state of the run. */
  ghost predicate PresentThroughout(s: State, actions: seq<Action>, id: nat) {
    forall k :: 0 <= k <= |actions| ==> id in Run(s, actions[..k]).ids
  }

  /** Some step of the run saved a page with the artifact in it. */
  ghost predicate Covered(s: State, actions: seq<Action>, id: nat) {
    exists k :: 0 <= k < |actions| && SavedPage(Run(s, actions[..k]), actions[k]).Some?
                && id in SavedPage(Run(s, actions[..k]), actions[k]).value.ids
  }

  /** The artifact is still ahead of the checkpoint, and every page at the current checkpoint that should hold it does. */
  ghost predicate Ahead(s: State, id: nat) {
    && After(s.cursor, id)
    && forall j :: j in s.jobs && s.jobs[j].version == s.version && s.jobs[j].Working? ==>
                     (InRange(id, s.cursor, s.jobs[j].page.next) ==> id in s.jobs[j].page.ids)
  }

  lemma AheadOrSaved(s: State, action: Action, id: nat)
    requires Inv(s) && Ahead(s, id) && id in s.ids && !Completes(s, action)
    ensures Ahead(Step(s, action), id) || (SavedPage(s, action).Some? && id in SavedPage(s, action).value.ids)
  {
    if action.Read? && action.j in s.jobs && s.jobs[action.j].Loaded? && 1 <= action.limit <= 1000 {
      PageIsComplete(s.ids, s.jobs[action.j].cursor, action.limit, id);
    }
  }

  lemma {:induction false} StaysAhead(s: State, actions: seq<Action>, id: nat)
    requires Inv(s) && s.cursor.None? && (forall j :: j in s.jobs ==> s.jobs[j].version < s.version) && Orderly(actions)
    requires PresentThroughout(s, actions, id) && forall k :: 0 <= k < |actions| ==> !Completes(Run(s, actions[..k]), actions[k])
    ensures Ahead(Run(s, actions), id) || Covered(s, actions, id)
  {
    if actions != [] {
      var n := |actions| - 1;
      var before := actions[..n];
      assert forall k :: 0 <= k <= n ==> before[..k] == actions[..k];
      StaysAhead(s, before, id);
      RunKeeps(s, before);
      if Covered(s, before, id) {
        var k :| 0 <= k < n && SavedPage(Run(s, before[..k]), before[k]).Some? && id in SavedPage(Run(s, before[..k]), before[k]).value.ids;
        assert before[..k] == actions[..k] && before[k] == actions[k];
      } else {
        assert !Completes(Run(s, actions[..n]), actions[n]);
        AheadOrSaved(Run(s, before), actions[n], id);
        assert Covered(s, actions, id) || Ahead(Run(s, actions), id);
      }
    }
  }

  lemma CoveredStays(s: State, actions: seq<Action>, last: Action, id: nat)
    requires Covered(s, actions, id)
    ensures Covered(s, actions + [last], id)
  {
    var k :| 0 <= k < |actions| && SavedPage(Run(s, actions[..k]), actions[k]).Some?
             && id in SavedPage(Run(s, actions[..k]), actions[k]).value.ids;
    assert (actions + [last])[..k] == actions[..k] && (actions + [last])[k] == actions[k];
  }

  lemma CoveredLast(s: State, actions: seq<Action>, last: Action, id: nat)
    requires SavedPage(Run(s, actions), last).Some? && id in SavedPage(Run(s, actions), last).value.ids
    ensures Covered(s, actions + [last], id)
  {
    var all := actions + [last];
    assert all[..|actions|] == actions && all[|actions|] == last;
  }

  /** A completed sweep starts over, and leaves no scheduler with the current checkpoint. */
  lemma StartsOver(s: State, first: Action)
    requires Inv(s) && Completes(s, first)
    ensures Step(s, first).cursor.None?
    ensures forall j :: j in Step(s, first).jobs ==> Step(s, first).jobs[j].version < Step(s, first).version
  {
  }

  /** Whatever is still ahead of the checkpoint is in the page that completes the sweep. */
  lemma LastPageHoldsTheRest(s: State, last: Action, id: nat)
    requires Inv(s) && Ahead(s, id) && Completes(s, last)
    ensures SavedPage(s, last).Some? && id in SavedPage(s, last).value.ids
  {
  }

  /* ---------- what was done with a page before it was saved ---------- */

  /** The artifact that this step passes to an expiration that does not fail. */
  function HandedBy(s: State, action: Action): set<nat> {
    if action.Expire? && action.outcome != Failed && action.j in s.jobs && s.jobs[action.j].Working?
       && s.jobs[action.j].done < |s.jobs[action.j].page.ids|
    then {s.jobs[action.j].page.ids[s.jobs[action.j].done]} else {}
  }

  /** The artifacts that a run passed to expirations that did not fail. */
  function Handed(s: State, actions: seq<Action>): set<nat> {
    if actions == [] then {}
    else Handed(s, actions[..|actions| - 1]) + HandedBy(Run(s, actions[..|actions| - 1]), actions[|actions| - 1])
  }

  /** Schedulers that loaded the checkpoint at this version or later have passed on what they worked through, or noted a failure. */
  ghost predicate Worked(version: nat, s: State, handed: set<nat>) {
    && version <= s.version
    && forall j, i :: (j in s.jobs && s.jobs[j].Working? && s.jobs[j].version >= version && !s.jobs[j].failed
                       && 0 <= i < s.jobs[j].done && i < |s.jobs[j].page.ids|)
                      ==> s.jobs[j].page.ids[i] in handed
  }

  lemma WorkedNext(version: nat, s: State, action: Action, handed: set<nat>)
    requires Worked(version, s, handed)
    ensures Worked(version, Step(s, action), handed + HandedBy(s, action))
  {
  }

  lemma {:induction false} RunWorked(s: State, actions: seq<Action>)
    requires forall j :: j in s.jobs ==> s.jobs[j].version < s.version
    ensures Worked(s.version, Run(s, actions), Handed(s, actions))
  {
    if actions != [] {
      var n := |actions| - 1;
      RunWorked(s, actions[..n]);
      WorkedNext(s.version, Run(s, actions[..n]), actions[n], Handed(s, actions[..n]));
    }
  }

  lemma {:induction false} HandedGrows(s: State, actions: seq<Action>, k: nat)
    requires k <= |actions|
    ensures Handed(s, actions[..k]) <= Handed(s, actions)
  {
    if k < |actions| {
      var n := |actions| - 1;
      HandedGrows(s, actions[..n], k);
      assert actions[..n][..k] == actions[..k];
    } else {
      assert actions[..k] == actions;
    }
  }

  /** Every artifact of a page that was saved was passed to an expiration that did not fail. */
  lemma CoveredIsHanded(s: State, actions: seq<Action>, id: nat)
    requires (forall j :: j in s.jobs ==> s.jobs[j].version < s.version) && Covered(s, actions, id)
    ensures id in Handed(s, actions)
  {
    var k :| 0 <= k < |actions| && SavedPage(Run(s, actions[..k]), actions[k]).Some?
             && id in SavedPage(Run(s, actions[..k]), actions[k]).value.ids;
    var t := Run(s, actions[..k]);
    RunWorked(s, actions[..k]);
    var page := t.jobs[actions[k].j].page;
    var i :| 0 <= i < |page.ids| && page.ids[i] == id;
    HandedGrows(s, actions, k);
  }

  /** Between two consecutive sweep completions, whatever other schedulers do, fail or lose, every artifact that stayed
      was in a page whose checkpoint was saved, and was passed to an expiration that did not fail. */
  lemma SweepCoversEverything(s: State, first: Action, actions: seq<Action>, last: Action, id: nat)
    requires Inv(s) && Completes(s, first)
    requires Orderly(actions) && forall k :: 0 <= k < |actions| ==> !Completes(Run(Step(s, first), actions[..k]), actions[k])
    requires Completes(Run(Step(s, first), actions), last)
    requires PresentThroughout(Step(s, first), actions, id)
    ensures Covered(Step(s, first), actions + [last], id) && id in Handed(Step(s, first), actions + [last])
  {
    var start := Step(s, first);
    StepKeeps(s, first);
    StartsOver(s, first);
    StaysAhead(start, actions, id);
    RunKeeps(start, actions);
    if Covered(start, actions, id) {
      CoveredStays(start, actions, last, id);
    } else {
      LastPageHoldsTheRest(Run(start, actions), last, id);
      CoveredLast(start, actions, last, id);
    }
    CoveredIsHanded(start, actions + [last], id);
  }
}
