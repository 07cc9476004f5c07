/**
 What one delivery does to the outside, in which order, and what must have happened before its work is completed
 (delivery.py).
 */
module ControlPlaneDelivery {
  import opened StateMachine
  import opened Wrappers
  import opened ControlPlane

  /** What an attempt did or learned outside: a write that succeeded, a write that failed, a pull request that existed already. */
  datatype Mark = Did(kind: WriteKind) | Missed(kind: WriteKind) | Found

  /** The mark that one step leaves for a work. A write is one that the log recorded. */
  function MarkOf(s: DB, action: Action, w: nat): seq<Mark> {
    if action.LGuardedWrite? && action.w == w && |Step(s, action).log| > |s.log| then
      [if action.succeeds then Did(action.write) else Missed(action.write)]
    else if action == LFindPullRequest(w) && Step(s, action) != s then [Found]
    else []
  }

  predicate Begins(s: DB, action: Action, w: nat) {
    action == LStartDelivery(w) && w !in s.attempts && w in Step(s, action).attempts
  }

  /** The marks of a work in a run, since its last delivery was started. */
  function Marks(s: DB, actions: seq<Action>, w: nat): seq<Mark> {
    if actions == [] then []
    else
      var n := |actions| - 1;
      var before := Run(s, actions[..n]);
      if Begins(before, actions[n], w) then [] else Marks(s, actions[..n], w) + MarkOf(before, actions[n], w)
  }

  /** Everything that an attempt may have done so far, in this order. */
  const ORDERS: set<seq<Mark>> := {
    [], [Did(Token)],
    [Did(Token), Found],
    [Did(Token), Did(PullRequestCreation)],
    [Did(Token), Did(Push)],
    [Did(Token), Did(Push), Did(PullRequestCreation)]
  }

  /** The orders that leave a pull request behind. */
  const PUBLISHED: set<seq<Mark>> := {
    [Did(Token), Found], [Did(Token), Did(PullRequestCreation)], [Did(Token), Did(Push), Did(PullRequestCreation)]
  }

  /** One of these orders, or one that ended in a write that failed. */
  ghost predicate InOrder(marks: seq<Mark>) {
    || marks in ORDERS
    || exists kind :: marks != [] && marks[|marks| - 1] == Missed(kind) && marks[..|marks| - 1] + [Did(kind)] in ORDERS
  }

  lemma {:induction false} RunLast(s: DB, actions: seq<Action>)
    requires actions != []
    ensures Run(s, actions) == Step(Run(s, actions[..|actions| - 1]), actions[|actions| - 1])
    decreases actions
  {
    if |actions| > 1 {
      var n := |actions| - 1;
      RunLast(Step(s, actions[0]), actions[1..]);
      assert actions[1..][..n - 1] == actions[..n][1..];
      assert actions[1..][n - 1] == actions[n];
    } else {
      assert actions[1..] == [] && actions[..0] == [];
    }
  }

  /** Where an attempt stands says what it has done. */
  ghost predicate Tells(stage: Stage, marks: seq<Mark>) {
    match stage
    case Begun => marks == []
    case Authorized => marks == [Did(Token)]
    case Pushed => marks == [Did(Token), Did(Push)]
    case Published => marks in PUBLISHED
    case Stopping => marks in ORDERS
    case Failing => InOrder(marks)
  }

  lemma Continues(stage: Stage, kind: WriteKind, marks: seq<Mark>)
    requires Tells(stage, marks) && WriteDue(stage, kind)
    ensures marks + [Did(kind)] in ORDERS && Tells(AfterWrite(kind), marks + [Did(kind)])
  {
    assert [] + [Did(kind)] == [Did(kind)];
    assert [Did(Token)] + [Did(kind)] == [Did(Token), Did(kind)];
    assert [Did(Token), Did(Push)] + [Did(kind)] == [Did(Token), Did(Push), Did(kind)];
  }

  lemma WriteEffect(s: DB, w: nat, kind: WriteKind, succeeds: bool)
    requires w in s.attempts
    ensures var action := LGuardedWrite(w, kind, succeeds);
            var after := Step(s, action);
            && w in after.attempts
            && (MarkOf(s, action, w) == [] ==> after.attempts[w].stage == s.attempts[w].stage
                                               || (WriteDue(s.attempts[w].stage, kind) && after.attempts[w].stage in {Stopping, Failing}))
            && (MarkOf(s, action, w) != [] ==>
                  && WriteDue(s.attempts[w].stage, kind) && MarkOf(s, action, w) == [if succeeds then Did(kind) else Missed(kind)]
                  && after.attempts[w].stage == if succeeds then AfterWrite(kind) else Failing)
  {
  }

  lemma WriteTells(s: DB, w: nat, kind: WriteKind, succeeds: bool, marks: seq<Mark>)
    requires w in s.attempts && Tells(s.attempts[w].stage, marks)
    ensures var action := LGuardedWrite(w, kind, succeeds);
            w in Step(s, action).attempts && Tells(Step(s, action).attempts[w].stage, marks + MarkOf(s, action, w))
  {
    var mark := MarkOf(s, LGuardedWrite(w, kind, succeeds), w);
    WriteEffect(s, w, kind, succeeds);
    if mark == [] {
      assert marks + [] == marks;
    } else {
      Continues(s.attempts[w].stage, kind, marks);
      var more := marks + mark;
      assert more[|more| - 1] == mark[0];
      assert more[..|more| - 1] == marks;
    }
  }

  lemma FindTells(s: DB, w: nat, marks: seq<Mark>)
    requires w in s.attempts && Tells(s.attempts[w].stage, marks)
    ensures w in Step(s, LFindPullRequest(w)).attempts
    ensures Tells(Step(s, LFindPullRequest(w)).attempts[w].stage, marks + MarkOf(s, LFindPullRequest(w), w))
  {
    assert marks + [] == marks;
    if s.attempts[w].stage == Authorized {
      assert Step(s, LFindPullRequest(w)).attempts[w].stage != s.attempts[w].stage;
      assert [Did(Token)] + [Found] == [Did(Token), Found];
    }
  }

  /** Nobody else touches the attempt. */
  lemma OthersLeaveTheAttempt(s: DB, action: Action, w: nat)
    requires w in s.attempts && w in Step(s, action).attempts
    requires action != LFindPullRequest(w) && action != LDeliveryError(w) && action != LFinalize(w) && !(action.LGuardedWrite? && action.w == w)
    ensures Step(s, action).attempts[w] == s.attempts[w]
  {
  }

  /** No other step leaves a mark or moves the attempt forward. */
  lemma OtherTells(s: DB, action: Action, w: nat, marks: seq<Mark>)
    requires w in Step(s, action).attempts && !(action.LGuardedWrite? && action.w == w) && action != LFindPullRequest(w)
    requires w in s.attempts && Tells(s.attempts[w].stage, marks)
    ensures MarkOf(s, action, w) == [] && Tells(Step(s, action).attempts[w].stage, marks)
  {
    if action != LDeliveryError(w) && action != LFinalize(w) {
      OthersLeaveTheAttempt(s, action, w);
    }
  }

  /** Only the start of a delivery begins an attempt. */
  lemma OnlyStartBegins(s: DB, action: Action, w: nat)
    requires w !in s.attempts && w in Step(s, action).attempts
    ensures Begins(s, action, w) && Step(s, action).attempts[w].stage == Begun
  {
  }

  lemma {:induction false} AttemptTells(s: DB, actions: seq<Action>, w: nat)
    requires s.attempts == map[] && w in Run(s, actions).attempts
    ensures Tells(Run(s, actions).attempts[w].stage, Marks(s, actions, w))
    decreases actions
  {
    RunLast(s, actions);
    var n := |actions| - 1;
    var before, last := Run(s, actions[..n]), actions[n];
    if w !in before.attempts {
      OnlyStartBegins(before, last, w);
      return;
    }
    AttemptTells(s, actions[..n], w);
    var marks := Marks(s, actions[..n], w);
    if last.LGuardedWrite? && last.w == w {
      WriteTells(before, w, last.write, last.succeeds, marks);
    } else if last == LFindPullRequest(w) {
      FindTells(before, w, marks);
    } else {
      OtherTells(before, last, w, marks);
      assert marks + [] == marks;
    }
  }

  /** In every run, an attempt asks for its token first, pushes at most once and before it creates the pull request, creates
      none that it found, and does nothing more after a write that failed. */
  lemma DeliveriesAreInOrder(actions: seq<Action>, w: nat)
    requires w in Run(EMPTY, actions).attempts
    ensures InOrder(Marks(EMPTY, actions, w))
  {
    AttemptTells(EMPTY, actions, w);
  }

  /** In every run, work is completed by a delivery only when this attempt obtained its token and then found a pull request or
      created one, the branch pushed by it before or there already. */
  lemma CompletionIsPublished(actions: seq<Action>, w: nat)
    requires var before := Run(EMPTY, actions); w < |before.works| && before.works[w].status != Completed
    requires var after := Step(Run(EMPTY, actions), LFinalize(w)); w < |after.works| && after.works[w].status == Completed
    ensures Marks(EMPTY, actions, w) in PUBLISHED
  {
    AttemptTells(EMPTY, actions, w);
  }

  /* ---------- what a delivery that nobody disturbs achieves ---------- */

  predicate Ready(s: DB, w: nat, stage: Stage) {
    && w in s.attempts && s.attempts[w].stage == stage && Lockable(s, w, {Running}) && AuthorityOf(s, w) == Some(s.attempts[w].authority)
  }

  lemma ReadyWrites(s: DB, w: nat, stage: Stage, kind: WriteKind)
    requires Ready(s, w, stage) && WriteDue(stage, kind)
    ensures Ready(Step(s, LGuardedWrite(w, kind, true)), w, AfterWrite(kind))
    ensures Step(s, LGuardedWrite(w, kind, true)).works == s.works
  {
  }

  lemma ReadyFinds(s: DB, w: nat)
    requires Ready(s, w, Authorized)
    ensures Ready(Step(s, LFindPullRequest(w)), w, Published) && Step(s, LFindPullRequest(w)).works == s.works
  {
  }

  predicate Delivered(s: DB, t: DB, w: nat) {
    && w < |s.works| && w < |t.works| && t.works[w] == s.works[w].(status := Completed, version := s.works[w].version + 2)
    && w in t.jobs && t.jobs[w].state == JobCompleted && w !in t.attempts
  }

  lemma ReadyFinishes(s: DB, w: nat)
    requires Ready(s, w, Published)
    ensures Delivered(s, Step(s, LFinalize(w)), w)
  {
  }

  lemma BegunIsReady(s: DB, w: nat)
    requires Begins(s, LStartDelivery(w), w)
    ensures Ready(Step(s, LStartDelivery(w)), w, Begun) && Step(s, LStartDelivery(w)).works == s.works
  {
    var t := Step(s, LStartDelivery(w));
    assert t.jobs[w].approval == s.jobs[w].approval && s.audits <= t.audits;
  }

  /** A delivery that was started and that nobody disturbs completes its work in each of the three ways. */
  lemma DeliveryCompletes(s: DB, w: nat)
    requires Begins(s, LStartDelivery(w), w)
    ensures var begun := Step(s, LStartDelivery(w));
            var token := Step(begun, LGuardedWrite(w, Token, true));
            var pushed := Step(token, LGuardedWrite(w, Push, true));
            && Delivered(s, Step(Step(token, LFindPullRequest(w)), LFinalize(w)), w)
            && Delivered(s, Step(Step(token, LGuardedWrite(w, PullRequestCreation, true)), LFinalize(w)), w)
            && Delivered(s, Step(Step(pushed, LGuardedWrite(w, PullRequestCreation, true)), LFinalize(w)), w)
  {
    BegunIsReady(s, w);
    var begun := Step(s, LStartDelivery(w));
    ReadyWrites(begun, w, Begun, Token);
    var token := Step(begun, LGuardedWrite(w, Token, true));
    ReadyFinds(token, w);
    ReadyFinishes(Step(token, LFindPullRequest(w)), w);
    ReadyWrites(token, w, Authorized, PullRequestCreation);
    ReadyFinishes(Step(token, LGuardedWrite(w, PullRequestCreation, true)), w);
    ReadyWrites(token, w, Authorized, Push);
    var pushed := Step(token, LGuardedWrite(w, Push, true));
    ReadyWrites(pushed, w, Pushed, PullRequestCreation);
    ReadyFinishes(Step(pushed, LGuardedWrite(w, PullRequestCreation, true)), w);
  }
}
