/**
 Whole runs of the control plane: what no sequence of transactions, crashes and external answers can break.
 */
module ControlPlaneHistory {
  import opened StateMachine
  import opened Wrappers
  import opened ControlPlane
  import opened ControlPlaneInvariants

  /* ---------- what a transaction may change ---------- */

  /** Quarantine freezes a worker's row. */
  ghost predicate WorkersEvolve(s: seq<Worker>, t: seq<Worker>) {
    && |s| <= |t|
    && (forall k :: 0 <= k < |s| ==> t[k].cpuTotal == s[k].cpuTotal && t[k].memoryTotal == s[k].memoryTotal)
    && (forall k :: 0 <= k < |s| && s[k].quarantined ==> t[k] == s[k])
  }

  /** A version names one state of a work, an owner stays, and a terminal state is never left. */
  ghost predicate WorkEvolves(s: Work, t: Work) {
    && t.scope == s.scope && s.version <= t.version
    && (s.version == t.version || Terminal(s.status) ==> t == s)
    && (s.owner.Some? ==> t.owner == s.owner)
  }

  ghost predicate WorksEvolve(s: seq<Work>, t: seq<Work>) {
    |s| <= |t| && forall w :: 0 <= w < |s| ==> WorkEvolves(s[w], t[w])
  }

  /** A lease that was returned or withheld stays so. */
  ghost predicate LeasesEvolve(s: seq<Lease>, t: seq<Lease>) {
    && |s| <= |t|
    && (forall l :: 0 <= l < |s| ==> t[l].work == s[l].work && t[l].worker == s[l].worker && t[l].amount == s[l].amount)
    && (forall l :: 0 <= l < |s| && s[l].state != Active ==> t[l].state == s[l].state)
  }

  /** No lease is given to a quarantined worker. */
  ghost predicate LeasesGrow(workers: seq<Worker>, s: seq<Lease>, t: seq<Lease>) {
    forall l :: |s| <= l < |t| ==> !IsQuarantined(workers, t[l].worker)
  }

  ghost predicate CredentialsEvolve(s: seq<Credential>, t: seq<Credential>) {
    && |s| <= |t|
    && (forall c :: 0 <= c < |s| ==> t[c].worker == s[c].worker && t[c].expires <= s[c].expires)
    && (forall c :: 0 <= c < |s| && s[c].revoked ==> t[c].revoked)
  }

  /** A job keeps its approval, and a settled job stays as it is. */
  ghost predicate JobsEvolve(s: map<nat, Job>, t: map<nat, Job>) {
    && (forall w :: w in s ==> w in t && t[w].approval == s[w].approval && s[w].attempts <= t[w].attempts)
    && (forall w :: w in s && !InProgress(s[w].state) ==> t[w] == s[w])
  }

  ghost predicate Evolves(s: DB, t: DB) {
    && WorkersEvolve(s.workers, t.workers) && WorksEvolve(s.works, t.works) && LeasesEvolve(s.leases, t.leases)
    && LeasesGrow(s.workers, s.leases, t.leases)
    && CredentialsEvolve(s.credentials, t.credentials) && JobsEvolve(s.jobs, t.jobs)
    && s.audits <= t.audits && s.log <= t.log
  }

  lemma ClaimEvolves(s: DB, k: nat, w: nat, amount: Usage, expires: int)
    requires WorksOk(s.works, |s.workers|) && Claim(s, k, w, amount, expires).Some?
    ensures Evolves(s, Claim(s, k, w, amount, expires).value)
  {
  }

  lemma WorkerTransitionEvolves(s: DB, l: nat, now: int, seconds: int, target: Status, expected: int)
    requires WorkerTransition(s, l, now, seconds, target, expected).Some?
    ensures Evolves(s, WorkerTransition(s, l, now, seconds, target, expected).value)
  {
  }

  lemma ReconcileEvolves(s: DB, k: nat, l: nat, w: nat, expected: int)
    requires Reconcile(s, k, l, w, expected).Some?
    ensures Evolves(s, Reconcile(s, k, l, w, expected).value)
  {
  }

  lemma CancelQueuedEvolves(s: DB, w: nat, actor: Actor, expected: int)
    requires CancelQueued(s, w, actor, expected).Some?
    ensures Evolves(s, CancelQueued(s, w, actor, expected).value)
  {
  }

  lemma GiveFeedbackEvolves(s: DB, w: nat, actor: Actor)
    requires GiveFeedback(s, w, actor).Some?
    ensures Evolves(s, GiveFeedback(s, w, actor).value)
  {
  }

  lemma DecideEvolves(s: DB, w: nat, actor: Actor, transport: Transport, kind: Kind, decision: Decision,
                      expected: Option<int>, minutes: int, intact: bool)
    requires (kind == PullRequest && decision == Approve ==> w !in s.jobs) && Decide(s, w, actor, transport, kind, decision, expected, minutes, intact).Some?
    ensures Evolves(s, Decide(s, w, actor, transport, kind, decision, expected, minutes, intact).value)
  {
  }

  lemma StartDeliveryEvolves(s: DB, w: nat)
    requires StartDelivery(s, w).Some?
    ensures Evolves(s, StartDelivery(s, w).value)
  {
  }

  lemma GuardedWriteEvolves(s: DB, w: nat, kind: WriteKind, succeeds: bool)
    requires GuardedWrite(s, w, kind, succeeds).Some?
    ensures Evolves(s, GuardedWrite(s, w, kind, succeeds).value)
  {
  }

  lemma FindPullRequestEvolves(s: DB, w: nat)
    requires FindPullRequest(s, w).Some?
    ensures Evolves(s, FindPullRequest(s, w).value)
  {
  }

  lemma DeliveryErrorEvolves(s: DB, w: nat)
    requires DeliveryError(s, w).Some?
    ensures Evolves(s, DeliveryError(s, w).value)
  {
  }

  lemma FinalizeEvolves(s: DB, w: nat)
    requires Finalize(s, w).Some?
    ensures Evolves(s, Finalize(s, w).value)
  {
  }

  lemma SettleEvolves(s: DB, w: nat)
    requires Settle(s, w).Some?
    ensures Evolves(s, Settle(s, w).value)
  {
  }

  lemma DropAttemptsEvolves(s: DB, ended: set<nat>)
    requires DropAttempts(s, ended).Some?
    ensures Evolves(s, DropAttempts(s, ended).value)
  {
  }

  lemma RecoverEvolves(s: DB, w: nat)
    requires Recover(s, w).Some?
    ensures Evolves(s, Recover(s, w).value)
  {
  }

  lemma QuarantineEvolves(s: DB, k: nat, now: int)
    requires Quarantine(s, k, now).Some?
    ensures Evolves(s, Quarantine(s, k, now).value)
  {
  }

  lemma DecideStepEvolves(s: DB, w: nat, actor: Actor, transport: Transport, kind: Kind, decision: Decision,
                          expected: Option<int>, minutes: int, intact: bool)
    requires Inv(s) && Decide(s, w, actor, transport, kind, decision, expected, minutes, intact).Some?
    ensures Evolves(s, Decide(s, w, actor, transport, kind, decision, expected, minutes, intact).value)
  {
    if kind == PullRequest && decision == Approve {
      UnapprovedIsFresh(s, w);
    }
    DecideEvolves(s, w, actor, transport, kind, decision, expected, minutes, intact);
  }

  lemma UploadEvolves(s: DB, l: nat, now: int, seconds: int, digest: string)
    requires Upload(s, l, now, seconds, digest).Some?
    ensures Evolves(s, Upload(s, l, now, seconds, digest).value)
  {
  }

  predicate OfPublication(action: Action) {
    action.LStartDelivery? || action.LGuardedWrite? || action.LFindPullRequest? || action.LFinalize?
  }

  predicate OfAftermath(action: Action) {
    action.LDeliveryError? || action.LSettle? || action.LDropAttempts? || action.LRecover?
  }

  predicate OfHost(action: Action) {
    action.LRegister? || action.LUpdateWorker? || action.LMint? || action.LRotate? || action.LRevoke? || action.LCreateWork? || action.LQuarantine?
  }

  predicate OfLease(action: Action) {
    action.LClaim? || action.LWorkerTransition? || action.LRelease? || action.LReconcile? || action.LUpload?
  }

  predicate OfPerson(action: Action) {
    action.LCancelQueued? || action.LFeedback? || action.LDecide?
  }

  lemma PublicationStepEvolves(s: DB, action: Action)
    requires Inv(s) && OfPublication(action) && Apply(s, action).Some?
    ensures Evolves(s, Step(s, action))
  {
    match action
    case LStartDelivery(w) => StartDeliveryEvolves(s, w);
    case LGuardedWrite(w, write, succeeds) => GuardedWriteEvolves(s, w, write, succeeds);
    case LFindPullRequest(w) => FindPullRequestEvolves(s, w);
    case LFinalize(w) => FinalizeEvolves(s, w);
    case _ =>
  }

  lemma AftermathStepEvolves(s: DB, action: Action)
    requires Inv(s) && OfAftermath(action) && Apply(s, action).Some?
    ensures Evolves(s, Step(s, action))
  {
    match action
    case LDeliveryError(w) => DeliveryErrorEvolves(s, w);
    case LSettle(w) => SettleEvolves(s, w);
    case LDropAttempts(ended) => DropAttemptsEvolves(s, ended);
    case LRecover(w) => RecoverEvolves(s, w);
    case _ =>
  }

  lemma HostStepEvolves(s: DB, action: Action)
    requires Inv(s) && OfHost(action) && Apply(s, action).Some?
    ensures Evolves(s, Step(s, action))
  {
    match action
    case LQuarantine(k, now) => QuarantineEvolves(s, k, now);
    case _ =>
  }

  lemma LeaseStepEvolves(s: DB, action: Action)
    requires Inv(s) && OfLease(action) && Apply(s, action).Some?
    ensures Evolves(s, Step(s, action))
  {
    match action
    case LClaim(k, w, amount, expires) => ClaimEvolves(s, k, w, amount, expires);
    case LWorkerTransition(l, now, seconds, target, expected) => WorkerTransitionEvolves(s, l, now, seconds, target, expected);
    case LReconcile(k, l, w, expected) => ReconcileEvolves(s, k, l, w, expected);
    case LUpload(l, now, seconds, digest) => UploadEvolves(s, l, now, seconds, digest);
    case _ =>
  }

  lemma PersonStepEvolves(s: DB, action: Action)
    requires Inv(s) && OfPerson(action) && Apply(s, action).Some?
    ensures Evolves(s, Step(s, action))
  {
    match action
    case LCancelQueued(w, actor, expected) => CancelQueuedEvolves(s, w, actor, expected);
    case LFeedback(w, actor) => GiveFeedbackEvolves(s, w, actor);
    case LDecide(w, actor, transport, kind, decision, version, minutes, intact) => DecideStepEvolves(s, w, actor, transport, kind, decision, version, minutes, intact);
    case _ =>
  }

  lemma StepEvolves(s: DB, action: Action)
    requires Inv(s)
    ensures Evolves(s, Step(s, action))
  {
    if Apply(s, action).Some? {
      if OfPublication(action) {
        PublicationStepEvolves(s, action);
      } else if OfAftermath(action) {
        AftermathStepEvolves(s, action);
      } else if OfHost(action) {
        HostStepEvolves(s, action);
      } else if OfLease(action) {
        LeaseStepEvolves(s, action);
      } else {
        PersonStepEvolves(s, action);
      }
    }
  }

  lemma PublicationStepKeeps(s: DB, action: Action)
    requires Inv(s) && OfPublication(action) && Apply(s, action).Some?
    ensures Inv(Step(s, action))
  {
    match action
    case LStartDelivery(w) => StartDeliveryKeeps(s, w);
    case LGuardedWrite(w, write, succeeds) => GuardedWriteKeeps(s, w, write, succeeds);
    case LFindPullRequest(w) => FindPullRequestKeeps(s, w);
    case LFinalize(w) => FinalizeKeeps(s, w);
    case _ =>
  }

  lemma AftermathStepKeeps(s: DB, action: Action)
    requires Inv(s) && OfAftermath(action) && Apply(s, action).Some?
    ensures Inv(Step(s, action))
  {
    match action
    case LDeliveryError(w) => DeliveryErrorKeeps(s, w);
    case LSettle(w) => SettleKeeps(s, w);
    case LDropAttempts(ended) => DropAttemptsKeeps(s, ended);
    case LRecover(w) => RecoverKeeps(s, w);
    case _ =>
  }

  lemma HostStepKeeps(s: DB, action: Action)
    requires Inv(s) && OfHost(action) && Apply(s, action).Some?
    ensures Inv(Step(s, action))
  {
    match action
    case LRegister(cpu, memory, disk, mock) => RegisterKeeps(s, cpu, memory, disk, mock);
    case LUpdateWorker(k, state, mock) => UpdateWorkerKeeps(s, k, state, mock);
    case LMint(k, expires) => MintKeeps(s, k, expires);
    case LRotate(c, now, lifetime, overlap) => RotateKeeps(s, c, now, lifetime, overlap);
    case LRevoke(c) => RevokeKeeps(s, c);
    case LCreateWork(scope, installation) => CreateWorkKeeps(s, scope, installation);
    case LQuarantine(k, now) => QuarantineKeeps(s, k, now);
    case _ =>
  }

  lemma LeaseStepKeeps(s: DB, action: Action)
    requires Inv(s) && OfLease(action) && Apply(s, action).Some?
    ensures Inv(Step(s, action))
  {
    match action
    case LClaim(k, w, amount, expires) => ClaimKeeps(s, k, w, amount, expires);
    case LWorkerTransition(l, now, seconds, target, expected) => WorkerTransitionKeeps(s, l, now, seconds, target, expected);
    case LRelease(l, now, seconds) => ReleaseKeeps(s, l, now, seconds);
    case LReconcile(k, l, w, expected) => ReconcileKeeps(s, k, l, w, expected);
    case LUpload(l, now, seconds, digest) => UploadKeeps(s, l, now, seconds, digest);
    case _ =>
  }

  lemma PersonStepKeeps(s: DB, action: Action)
    requires Inv(s) && OfPerson(action) && Apply(s, action).Some?
    ensures Inv(Step(s, action))
  {
    match action
    case LCancelQueued(w, actor, expected) => CancelQueuedKeeps(s, w, actor, expected);
    case LFeedback(w, actor) => GiveFeedbackKeeps(s, w, actor);
    case LDecide(w, actor, transport, kind, decision, version, minutes, intact) => DecideKeeps(s, w, actor, transport, kind, decision, version, minutes, intact);
    case _ =>
  }

  lemma StepKeeps(s: DB, action: Action)
    requires Inv(s)
    ensures Inv(Step(s, action))
  {
    if Apply(s, action).Some? {
      if OfPublication(action) {
        PublicationStepKeeps(s, action);
      } else if OfAftermath(action) {
        AftermathStepKeeps(s, action);
      } else if OfHost(action) {
        HostStepKeeps(s, action);
      } else if OfLease(action) {
        LeaseStepKeeps(s, action);
      } else {
        PersonStepKeeps(s, action);
      }
    }
  }

  /* ---------- whole runs ---------- */

  lemma {:induction false} RunKeeps(s: DB, actions: seq<Action>)
    requires Inv(s)
    ensures Inv(Run(s, actions))
    decreases actions
  {
    if actions != [] {
      StepKeeps(s, actions[0]);
      RunKeeps(Step(s, actions[0]), actions[1..]);
    }
  }

  lemma EvolvesOn(s: DB, t: DB, u: DB)
    requires Evolves(s, t) && Evolves(t, u)
    ensures Evolves(s, u)
  {
  }

  lemma {:induction false} RunEvolves(s: DB, actions: seq<Action>)
    requires Inv(s)
    ensures Evolves(s, Run(s, actions))
    decreases actions
  {
    if actions != [] {
      StepKeeps(s, actions[0]);
      StepEvolves(s, actions[0]);
      RunEvolves(Step(s, actions[0]), actions[1..]);
      EvolvesOn(s, Step(s, actions[0]), Run(s, actions));
    }
  }

  /** The state after any run of the platform. */
  ghost predicate Reachable(s: DB) {
    exists actions :: Run(EMPTY, actions) == s
  }

  lemma ReachableIsSound(s: DB)
    requires Reachable(s)
    ensures Inv(s)
  {
    var actions :| Run(EMPTY, actions) == s;
    RunKeeps(EMPTY, actions);
  }
}
