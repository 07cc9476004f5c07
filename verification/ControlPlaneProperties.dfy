/**
 The promises of the control plane, proved of every run.
 */
module ControlPlaneProperties {
  import opened StateMachine
  import opened Wrappers
  import opened ControlPlane
  import opened ControlPlaneInvariants
  import opened ControlPlaneHistory

  /* ---------- the approval gate ---------- */

  /** Nothing is committed, published or completed without exactly one approval, by an approver, of the version that was committed. */
  lemma ApprovalGate(s: DB, w: nat) returns (a: nat)
    requires Reachable(s) && w < |s.works| && s.works[w].status in {Committing, PrCreated, Completed}
    ensures IsGrantOf(s.audits, a, w)
    ensures forall b: nat :: IsGrantOf(s.audits, b, w) ==> b == a
    ensures s.audits[a].effective == Approver || s.audits[a].effective == Administrator
    ensures s.audits[a].before == AwaitingApproval && s.audits[a].after == Committing && s.audits[a].scope == s.works[w].scope
    ensures s.works[w].version == s.audits[a].version + Since(s.works[w].status)
  {
    ReachableIsSound(s);
    a :| IsGrantOf(s.audits, a, w);
    forall b: nat | IsGrantOf(s.audits, b, w)
      ensures b == a
    {
      assert a < b ==> IsPrDecision(s.audits[b], s.audits[a].work);
      assert b < a ==> IsPrDecision(s.audits[a], s.audits[b].work);
    }
  }

  /** Completed, failed and cancelled work never changes again, whatever the transition table allows. */
  lemma TerminalIsAbsorbing(s: DB, actions: seq<Action>, w: nat)
    requires Reachable(s) && w < |s.works| && Terminal(s.works[w].status)
    ensures w < |Run(s, actions).works| && Run(s, actions).works[w] == s.works[w]
  {
    ReachableIsSound(s);
    RunEvolves(s, actions);
  }

  /** A work is claimed at most once in its life: it never has two leases, nor another worker. */
  lemma ClaimedAtMostOnce(s: DB, actions: seq<Action>, l: nat, other: nat)
    requires Reachable(s) && l < |s.leases| && other < |Run(s, actions).leases|
    requires Run(s, actions).leases[other].work == s.leases[l].work
    ensures other == l
    ensures s.leases[l].work < |Run(s, actions).works| && Run(s, actions).works[s.leases[l].work].owner == Some(s.leases[l].worker)
  {
    ReachableIsSound(s);
    RunEvolves(s, actions);
    RunKeeps(s, actions);
  }

  /* ---------- delivery ---------- */

  lemma OnlyDeliveryWrites(s: DB, action: Action)
    requires Apply(s, action).Some? && !action.LGuardedWrite?
    ensures |Step(s, action).log| > |s.log| ==> Step(s, action).log[|s.log|].Quarantined?
  {
  }

  /** The rows under which an external write may start. */
  ghost predicate MayWrite(s: DB, w: nat) {
    && w < |s.works| && s.works[w].status == Committing
    && s.works[w].owner.Some? && s.works[w].owner.value < |s.workers| && !s.workers[s.works[w].owner.value].quarantined
    && w in s.jobs && s.jobs[w].state == Running && w in s.bundles
    && s.jobs[w].approval.Some? && IsGrantOf(s.audits, s.jobs[w].approval.value, w)
    && s.audits[s.jobs[w].approval.value].version == s.works[w].version
    && s.audits[s.jobs[w].approval.value].bundle == Some(s.bundles[w])
  }

  /** A guarded write writes exactly when it may. */
  lemma GuardedWriteIsFenced(s: DB, w: nat, kind: WriteKind, succeeds: bool)
    requires Reachable(s) && GuardedWrite(s, w, kind, succeeds).Some?
    ensures GuardedWrite(s, w, kind, succeeds).value.log != s.log <==> MayWrite(s, w)
    ensures (MayWrite(s, w) ==>
               GuardedWrite(s, w, kind, succeeds).value.log ==
               s.log + [Write(kind, w, s.works[w].owner.value, s.jobs[w].approval.value, Committing, s.works[w].version, Running, s.bundles[w])])
  {
    ReachableIsSound(s);
    if Lockable(s, w, {Running}) {
      AuthorityIsPinned(s, w);
    }
  }

  /** In every interleaving, an external write starts only while its work is committing at the approved version, its job runs,
      its bundle is the approved one, and its worker is not quarantined. */
  lemma WritesStartApproved(s: DB, action: Action)
    requires Reachable(s) && |Step(s, action).log| > |s.log| && Step(s, action).log[|s.log|].Write?
    ensures MayWrite(s, Step(s, action).log[|s.log|].work)
  {
    if action.LGuardedWrite? {
      GuardedWriteIsFenced(s, action.w, action.write, action.succeeds);
    } else {
      OnlyDeliveryWrites(s, action);
    }
  }

  /** Once a worker's quarantine is committed, no external write starts for any of its work. */
  lemma NoWriteAfterQuarantine(s: DB, i: nat, j: nat)
    requires Reachable(s) && i < j < |s.log| && s.log[i].Quarantined? && s.log[j].Write?
    ensures s.log[i].worker != s.log[j].worker
    ensures s.log[j].work < |s.works| && s.works[s.log[j].work].owner != Some(s.log[i].worker)
  {
    ReachableIsSound(s);
    assert WriteOk(s.log[j], s.audits, s.works);
  }

  /** From the approval until COMMITTING is left, the authority of a delivery exists and is the same. */
  lemma AuthorityIsStable(s: DB, actions: seq<Action>, w: nat)
    requires Reachable(s) && w < |s.works| && w in s.jobs && s.works[w].status == Committing
    requires w < |Run(s, actions).works| && Run(s, actions).works[w].status == Committing
    ensures w in Run(s, actions).jobs && AuthorityOf(s, w).Some?
    ensures AuthorityOf(Run(s, actions), w) == AuthorityOf(s, w)
  {
    ReachableIsSound(s);
    RunEvolves(s, actions);
    RunKeeps(s, actions);
    AuthorityIsPinned(s, w);
    AuthorityIsPinned(Run(s, actions), w);
  }

  /** A delivery that may still finish finds exactly the authority it started with. */
  lemma DeliveryIsNeverMismatched(s: DB, w: nat)
    requires Reachable(s) && w in s.attempts && Lockable(s, w, {Running})
    ensures AuthorityOf(s, w) == Some(s.attempts[w].authority)
  {
    ReachableIsSound(s);
    AuthorityIsPinned(s, w);
  }

  /** A delivery job and its work end together. */
  lemma DeliveryEndsWithItsWork(s: DB, w: nat)
    requires Reachable(s) && w in s.jobs
    ensures w < |s.works| && (s.jobs[w].state == JobCompleted <==> s.works[w].status == Completed)
    ensures InProgress(s.jobs[w].state) ==> s.works[w].status == Committing || s.works[w].status == Failed
    ensures s.works[w].status == Committing ==> InProgress(s.jobs[w].state)
  {
    ReachableIsSound(s);
    assert GrantOk(s.audits[s.jobs[w].approval.value], s.works);
  }

  /* ---------- mock runs ---------- */

  lemma {:induction false} LatestIsLast(audits: seq<Audit>, a: nat, w: nat)
    requires a < |audits| && IsPrDecision(audits[a], w)
    requires forall b :: a < b < |audits| ==> !IsPrDecision(audits[b], w)
    ensures LatestPr(audits, w) == Some(a)
  {
    if a < |audits| - 1 {
      LatestIsLast(audits[..|audits| - 1], a, w);
    }
  }

  /** A worker may report progress past COMMITTING exactly for its own approved run on a mock host, without central delivery. */
  lemma MockProgress(s: DB, w: nat, k: nat, target: Status)
    requires Reachable(s) && w < |s.works| && (target == PrCreated || target == Completed)
    ensures WorkerMay(s, w, target, k) <==>
            (s.works[w].owner == Some(k) && k < |s.workers| && s.workers[k].mock && w !in s.jobs
             && s.works[w].status == (if target == PrCreated then Committing else PrCreated))
  {
    ReachableIsSound(s);
    if target in WorkerAllowed(s.works[w].status) {
      WorkerIsNarrower(s.works[w].status, target);
    }
    if Approved(s.works[w].status) && w !in s.jobs {
      var a := ApprovalGate(s, w);
      LatestIsLast(s.audits, a, w);
    }
  }

  /* ---------- quarantine ---------- */

  /** Quarantine never asks for a forbidden transition, ends every work of the worker and touches no other. */
  lemma QuarantineEndsEverything(s: DB, k: nat, now: int, w: nat)
    requires Reachable(s) && k < |s.workers| && w < |s.works|
    ensures Quarantine(s, k, now).Some? && |Quarantine(s, k, now).value.works| == |s.works|
    ensures (s.works[w].owner == Some(k) && !Terminal(s.works[w].status) ==>
              MoveWork(s.works[w], QuarantineTarget(s.works[w].status), s.works[w].version) == Some(Quarantine(s, k, now).value.works[w]))
    ensures s.works[w].owner == Some(k) ==> Terminal(Quarantine(s, k, now).value.works[w].status)
    ensures s.works[w].owner != Some(k) || Terminal(s.works[w].status) ==> Quarantine(s, k, now).value.works[w] == s.works[w]
  {
    ReachableIsSound(s);
    QuarantineIsTotal(s.works[w].status);
  }

  /** In every continuation, a quarantined worker's row and reservations stay as they are, and no lease of it validates. */
  lemma QuarantineIsPermanent(s: DB, k: nat, actions: seq<Action>, l: nat, now: int)
    requires Reachable(s) && k < |s.workers| && s.workers[k].quarantined
    requires l < |Run(s, actions).leases| && Run(s, actions).leases[l].worker == k
    ensures k < |Run(s, actions).workers| && Run(s, actions).workers[k] == s.workers[k]
    ensures l < |s.leases| && s.leases[l].state != Active && Run(s, actions).leases[l].state == s.leases[l].state
    ensures !LeaseValid(Run(s, actions), l, now)
  {
    ReachableIsSound(s);
    RunEvolves(s, actions);
    RunKeeps(s, actions);
  }

  /** In every continuation, a quarantined worker cannot authenticate, obtain a credential or claim work, and quarantining it again changes nothing. */
  lemma QuarantineRefuses(s: DB, k: nat, actions: seq<Action>, c: nat, w: nat, amount: Usage, now: int, lifetime: int)
    requires Reachable(s) && k < |s.workers| && s.workers[k].quarantined
    ensures c < |Run(s, actions).credentials| && Run(s, actions).credentials[c].worker == k ==> !Authenticates(Run(s, actions), c, now)
    ensures (c < |Run(s, actions).credentials| && Run(s, actions).credentials[c].worker == k ==>
               Rotate(Run(s, actions), c, now, lifetime, now).None?)
    ensures Mint(Run(s, actions), k, lifetime).None?
    ensures Claim(Run(s, actions), k, w, amount, now).None?
    ensures Quarantine(Run(s, actions), k, now) == Some(Run(s, actions))
  {
    ReachableIsSound(s);
    RunEvolves(s, actions);
    RunKeeps(s, actions);
  }
}
