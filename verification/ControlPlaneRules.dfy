/**
 When each transaction of a person or a worker is accepted, and what it then does, said in the columns of the rows.
 */
module ControlPlaneRules {
  import opened StateMachine
  import opened Wrappers
  import opened ControlPlane
  import opened ControlPlaneInvariants
  import opened ControlPlaneHistory

  /* ---------- leases ---------- */

  /** The lease authorizes its holder: active, not expired, and of a worker that is not quarantined. */
  predicate LeaseHolds(s: DB, l: nat, now: int) {
    && l < |s.leases| && s.leases[l].state == Active && now <= s.leases[l].expires
    && s.leases[l].worker < |s.workers| && !s.workers[s.leases[l].worker].quarantined && s.leases[l].work < |s.works|
  }

  /** An expired lease moves no work, returns no capacity and uploads nothing, and is not renewed. */
  lemma ExpiredLeaseIsRefused(s: DB, l: nat, now: int, seconds: int, target: Status, expected: int, digest: string)
    requires l < |s.leases| && s.leases[l].expires < now
    ensures Step(s, LWorkerTransition(l, now, seconds, target, expected)) == s && Apply(s, LWorkerTransition(l, now, seconds, target, expected)).None?
    ensures Step(s, LRelease(l, now, seconds)) == s && Apply(s, LRelease(l, now, seconds)).None?
    ensures Step(s, LUpload(l, now, seconds, digest)) == s && Apply(s, LUpload(l, now, seconds, digest)).None?
  {
  }

  /** Every accepted call of a lease renews it from the time of the call. */
  lemma AcceptedLeaseIsRenewed(s: DB, action: Action)
    requires (action.LWorkerTransition? || action.LRelease? || action.LUpload?) && Apply(s, action).Some?
    ensures LeaseHolds(s, action.l, action.now)
    ensures |Step(s, action).leases| == |s.leases| && Step(s, action).leases[action.l].expires == action.now + action.seconds
    ensures forall k :: 0 <= k < |s.leases| && k != action.l ==> Step(s, action).leases[k] == s.leases[k]
  {
  }

  lemma ReleaseAccepted(s: DB, l: nat, now: int, seconds: int)
    ensures Apply(s, LRelease(l, now, seconds)).Some? <==>
              LeaseHolds(s, l, now) && s.works[s.leases[l].work].status in {Completed, Failed, Cancelled}
  {
  }

  /** A bundle is taken under its SHA-256 in lower-case hexadecimal, while the work is verified or waits for its approval. */
  lemma UploadAccepted(s: DB, l: nat, now: int, seconds: int, digest: string)
    ensures Apply(s, LUpload(l, now, seconds, digest)).Some? <==>
              && LeaseHolds(s, l, now) && s.works[s.leases[l].work].status in {Verifying, AwaitingApproval}
              && |digest| == 64 && forall c :: c in digest ==> '0' <= c <= '9' || 'a' <= c <= 'f'
    ensures Apply(s, LUpload(l, now, seconds, digest)).Some? ==> Step(s, LUpload(l, now, seconds, digest)).bundles == s.bundles[s.leases[l].work := digest]
  {
    assert forall i :: 0 <= i < |digest| ==> digest[i] in digest;
  }

  /** Besides its lease and the edge, a worker's transition needs the version, and past COMMITTING a mock host without a delivery. */
  lemma WorkerTransitionAccepted(s: DB, l: nat, now: int, seconds: int, target: Status, expected: int)
    requires Reachable(s)
    ensures var action := LWorkerTransition(l, now, seconds, target, expected);
            Apply(s, action).Some? ==>
              && LeaseHolds(s, l, now) && s.works[s.leases[l].work].owner == Some(s.leases[l].worker)
              && s.works[s.leases[l].work].version == expected
              && target in Allowed(s.works[s.leases[l].work].status) && target != Committing
              && (target in {PrCreated, Completed} ==> s.workers[s.leases[l].worker].mock && s.leases[l].work !in s.jobs)
              && Step(s, action).works[s.leases[l].work] == s.works[s.leases[l].work].(status := target, version := expected + 1)
  {
    if Apply(s, LWorkerTransition(l, now, seconds, target, expected)).Some? {
      WorkerIsNarrower(s.works[s.leases[l].work].status, target);
    }
  }

  /** A worker settles its own lease of ended work at the version it read, once no delivery of it is unfinished. */
  lemma ReconcileAccepted(s: DB, k: nat, l: nat, w: nat, expected: int)
    requires Reachable(s)
    ensures Apply(s, LReconcile(k, l, w, expected)).Some? <==>
              && k < |s.workers| && !s.workers[k].quarantined && l < |s.leases| && s.leases[l].worker == k && s.leases[l].work == w
              && w < |s.works| && s.works[w].version == expected && s.works[w].status in {Completed, Failed, Cancelled}
              && s.leases[l].state in {Active, Returned}
              && (w in s.jobs ==> s.jobs[w].state in {JobCompleted, JobFailed})
              && (s.leases[l].state == Active ==> Reconciled(w, l) !in s.audits)
  {
    ReachableIsSound(s);
  }

  /** A worker that is online and not quarantined, and has room for it, claims queued work for 1 to 64 CPUs, 1 GiB and 5 GB or more. */
  lemma ClaimAccepted(s: DB, k: nat, w: nat, amount: Usage, expires: int)
    ensures Apply(s, LClaim(k, w, amount, expires)).Some? <==>
              && k < |s.workers| && s.workers[k].state == Online && !s.workers[k].quarantined
              && amount.cpu <= s.workers[k].cpu && amount.memory <= s.workers[k].memory && amount.disk <= s.workers[k].disk
              && amount.runs == 1 && 1 <= amount.cpu <= 64 && 1024 <= amount.memory && 5 <= amount.disk
              && w < |s.works| && s.works[w].status == Queued
    ensures var t := Step(s, LClaim(k, w, amount, expires));
            Apply(s, LClaim(k, w, amount, expires)).Some? ==>
              && t.works == s.works[w := s.works[w].(status := Provisioning, version := s.works[w].version + 1, owner := Some(k))]
              && t.leases == s.leases + [Lease(w, k, Active, expires, amount)]
  {
  }

  /** A worker registers with a CPU, 1 GiB of memory and 1 GB of disk or more, and starts idle, online and trusted. */
  lemma RegistrationAccepted(s: DB, cpu: int, memory: int, disk: int, mock: bool)
    ensures Apply(s, LRegister(cpu, memory, disk, mock)).Some? <==> cpu >= 1 && memory >= 1024 && disk >= 1
    ensures Apply(s, LRegister(cpu, memory, disk, mock)).Some? ==>
              && |Step(s, LRegister(cpu, memory, disk, mock)).workers| == |s.workers| + 1
              && var worker := Step(s, LRegister(cpu, memory, disk, mock)).workers[|s.workers|];
                 && worker.state == Online && !worker.quarantined && worker.mock == mock && worker.activeRuns == 0
                 && worker.cpu == worker.cpuTotal == cpu && worker.memory == worker.memoryTotal == memory && worker.disk == disk
  {
  }

  /* ---------- credentials ---------- */

  /** A credential authenticates before it expires, unless it was revoked or its worker quarantined. */
  lemma AuthenticationAccepted(s: DB, c: nat, now: int)
    ensures Authenticates(s, c, now) <==>
              && c < |s.credentials| && now < s.credentials[c].expires && !s.credentials[c].revoked
              && s.credentials[c].worker < |s.workers| && !s.workers[s.credentials[c].worker].quarantined
  {
  }

  /** Only a credential that authenticates is rotated, and it hands over to its successor within the overlap. */
  lemma RotationAccepted(s: DB, c: nat, now: int, lifetime: int, overlap: int)
    ensures Apply(s, LRotate(c, now, lifetime, overlap)).Some? <==> Authenticates(s, c, now)
    ensures var t := Step(s, LRotate(c, now, lifetime, overlap));
            Apply(s, LRotate(c, now, lifetime, overlap)).Some? ==>
              && |t.credentials| == |s.credentials| + 1
              && t.credentials[|s.credentials|] == Credential(s.credentials[c].worker, now + lifetime, false)
              && t.credentials[c].expires <= now + overlap && t.credentials[c].expires <= s.credentials[c].expires
              && t.credentials[c].expires in {now + overlap, s.credentials[c].expires}
              && forall d :: 0 <= d < |s.credentials| && d != c ==> t.credentials[d] == s.credentials[d]
  {
  }

  /* ---------- people ---------- */

  /** The work's worker, if it has one, is not quarantined. */
  predicate OwnerFine(s: DB, w: nat)
    requires w < |s.works|
  {
    s.works[w].owner.Some? && s.works[w].owner.value < |s.workers| ==> !s.workers[s.works[w].owner.value].quarantined
  }

  predicate OnMockHost(s: DB, w: nat)
    requires w < |s.works|
  {
    s.works[w].owner.Some? && s.works[w].owner.value < |s.workers| && s.workers[s.works[w].owner.value].mock
  }

  /** A pull request is approved, from the web or from Slack, by an approver of the work's organization; outside a mock host
      only with an installed repository and an intact bundle. */
  lemma ApprovalAccepted(s: DB, w: nat, actor: Actor, transport: Transport, expected: Option<int>, minutes: int, intact: bool)
    ensures var action := LDecide(w, actor, transport, PullRequest, Approve, expected, minutes, intact);
            Apply(s, action).Some? <==>
              && w < |s.works| && s.works[w].status == AwaitingApproval && OwnerFine(s, w)
              && actor.organization == s.works[w].scope.organization && actor.effective in {Approver, Administrator}
              && (OnMockHost(s, w) || (s.works[w].installation && intact && w in s.bundles))
  {
  }

  /** An approval commits the work and, outside a mock host, queues the delivery that this approval authorizes. */
  lemma ApprovalQueues(s: DB, w: nat, actor: Actor, transport: Transport, expected: Option<int>, minutes: int, intact: bool)
    requires Reachable(s) && Apply(s, LDecide(w, actor, transport, PullRequest, Approve, expected, minutes, intact)).Some?
    ensures var t := Step(s, LDecide(w, actor, transport, PullRequest, Approve, expected, minutes, intact));
            && t.works == s.works[w := s.works[w].(status := Committing, version := s.works[w].version + 1)]
            && t.jobs == (if OnMockHost(s, w) then s.jobs else s.jobs[w := Job(Pending, Some(|s.audits|), 0)])
            && |t.audits| == |s.audits| + 1 && t.audits[|s.audits|].Approval?
            && t.audits[|s.audits|].queued == !OnMockHost(s, w)
            && t.audits[|s.audits|].bundle == if OnMockHost(s, w) then None else Some(s.bundles[w])
  {
    ApprovalAccepted(s, w, actor, transport, expected, minutes, intact);
    NewWorkHasNoJob(s, w);
  }

  lemma NewWorkHasNoJob(s: DB, w: nat)
    requires Reachable(s) && w < |s.works| && s.works[w].status == AwaitingApproval
    ensures w !in s.jobs
  {
    ReachableIsSound(s);
    UnapprovedIsFresh(s, w);
  }

  /** A pull request is rejected on the web only, and sent back to be implemented. */
  lemma RejectionAccepted(s: DB, w: nat, actor: Actor, transport: Transport, expected: Option<int>, minutes: int, intact: bool)
    ensures var action := LDecide(w, actor, transport, PullRequest, Reject, expected, minutes, intact);
            Apply(s, action).Some? <==>
              && w < |s.works| && s.works[w].status == AwaitingApproval && OwnerFine(s, w) && transport == Web
              && actor.organization == s.works[w].scope.organization && actor.effective in {Approver, Administrator}
    ensures var action := LDecide(w, actor, transport, PullRequest, Reject, expected, minutes, intact);
            Apply(s, action).Some? ==>
              && Step(s, action).works == s.works[w := s.works[w].(status := Implementing, version := s.works[w].version + 1)]
              && Step(s, action).jobs == s.jobs
  {
  }

  /** An exhausted budget is extended by 15 minutes to a day, on the web, at the version that was seen; a refusal leaves it exhausted. */
  lemma BudgetAccepted(s: DB, w: nat, actor: Actor, transport: Transport, decision: Decision, expected: Option<int>, minutes: int, intact: bool)
    ensures var action := LDecide(w, actor, transport, Budget, decision, expected, minutes, intact);
            Apply(s, action).Some? <==>
              && w < |s.works| && s.works[w].status == BudgetExhausted && OwnerFine(s, w) && transport == Web
              && actor.organization == s.works[w].scope.organization && actor.effective in {Approver, Administrator}
              && expected == Some(s.works[w].version) && (decision == Approve ==> 15 <= minutes <= 1440)
    ensures var action := LDecide(w, actor, transport, Budget, decision, expected, minutes, intact);
            Apply(s, action).Some? ==>
              && Step(s, action).jobs == s.jobs
              && Step(s, action).works == if decision == Approve
                 then s.works[w := s.works[w].(status := Implementing, version := s.works[w].version + 1)] else s.works
  {
    assert w < |s.works| ==> s.works[w := s.works[w]] == s.works;
  }

  /** Feedback comes from an operator or above, to work that is not approved and has not ended, and resumes it where it waits for it. */
  lemma FeedbackAccepted(s: DB, w: nat, actor: Actor)
    ensures Apply(s, LFeedback(w, actor)).Some? <==>
              && w < |s.works| && OwnerFine(s, w) && actor.organization == s.works[w].scope.organization
              && actor.effective in {Operator, Approver, Administrator}
              && s.works[w].status !in {Committing, PrCreated, Completed, Failed, Cancelled}
    ensures Apply(s, LFeedback(w, actor)).Some? ==>
              && Step(s, LFeedback(w, actor)).jobs == s.jobs
              && Step(s, LFeedback(w, actor)).works == if s.works[w].status in {AwaitingFeedback, AwaitingApproval, AwaitingInput}
                 then s.works[w := s.works[w].(status := Implementing, version := s.works[w].version + 1)] else s.works
  {
    assert w < |s.works| ==> s.works[w := s.works[w]] == s.works;
  }

  /** Work is cancelled in the queue by an administrator, at the version that was seen, while nobody claimed it. */
  lemma CancellationAccepted(s: DB, w: nat, actor: Actor, expected: int)
    requires Reachable(s)
    ensures Apply(s, LCancelQueued(w, actor, expected)).Some? <==>
              && w < |s.works| && s.works[w].status == Queued && s.works[w].version == expected
              && actor.organization == s.works[w].scope.organization && actor.effective == Administrator
    ensures Apply(s, LCancelQueued(w, actor, expected)).Some? ==>
              Step(s, LCancelQueued(w, actor, expected)).works == s.works[w := s.works[w].(status := Cancelled, version := expected + 1)]
  {
    if w < |s.works| && s.works[w].status == Queued {
      QueuedIsFree(s, w);
    }
  }

  lemma QueuedIsFree(s: DB, w: nat)
    requires Reachable(s) && w < |s.works| && s.works[w].status == Queued
    ensures s.works[w].owner.None? && forall l :: 0 <= l < |s.leases| ==> s.leases[l].work != w
  {
    ReachableIsSound(s);
  }

  /* ---------- deliveries ---------- */

  /** Work that an approval sent into delivery. */
  predicate UnderDelivery(s: DB, w: nat) {
    && w < |s.works| && s.works[w].status == Committing && w in s.jobs
    && s.works[w].owner.Some? && s.works[w].owner.value < |s.workers| && !s.workers[s.works[w].owner.value].quarantined
  }

  lemma AuthorityWaits(s: DB, w: nat)
    requires Reachable(s) && UnderDelivery(s, w)
    ensures AuthorityOf(s, w).Some?
    ensures AuthorityOf(s.(jobs := s.jobs[w := s.jobs[w].(state := Running, attempts := s.jobs[w].attempts + 1)]), w) == AuthorityOf(s, w)
  {
    ReachableIsSound(s);
    AuthorityIsPinned(s, w);
  }

  /** Exactly which approval authorizes a delivery: the one its job names, if it is the approval of this work and its repository by
      an approver, queued for delivery at this version, and for the very bundle that is there. */
  lemma AuthorityAccepted(s: DB, w: nat)
    requires w < |s.works| && w in s.jobs
    ensures AuthorityOf(s, w).Some? <==>
              && s.jobs[w].approval.Some? && s.jobs[w].approval.value < |s.audits| && w in s.bundles
              && s.audits[s.jobs[w].approval.value].Approval?
              && var audit := s.audits[s.jobs[w].approval.value];
                 && audit.work == w && audit.scope == s.works[w].scope && audit.kind == PullRequest && audit.decision == Approve
                 && audit.effective in {Approver, Administrator} && audit.queued && audit.after == Committing
                 && audit.version == s.works[w].version && audit.bundle == Some(s.bundles[w])
                 && |s.bundles[w]| == 64 && (forall i :: 0 <= i < 64 ==> '0' <= s.bundles[w][i] <= '9' || 'a' <= s.bundles[w][i] <= 'f')
    ensures AuthorityOf(s, w).Some? ==> AuthorityOf(s, w) == Some(Authority(s.jobs[w].approval.value, s.bundles[w], s.works[w].version))
  {
  }

  /** Exactly which approval lets a mock run report its pull request and its end: the latest decision on it, if it was an
      approver's approval of its repository, without a delivery or a bundle, at the version in which it was committed. */
  lemma MockApprovalAccepted(audit: Audit, work: Work)
    ensures MockApproval(audit, work) <==>
              && audit.Approval? && audit.scope == work.scope && audit.effective in {Approver, Administrator} && audit.decision == Approve
              && !audit.queued && audit.bundle.None? && audit.before == AwaitingApproval && audit.after == Committing
              && work.version == audit.version + (if work.status == PrCreated then 1 else 0)
  {
  }

  /** Whatever the state, a write that is due is made exactly for a running delivery whose authority is still that of the attempt. */
  lemma WriteAccepted(s: DB, w: nat, kind: WriteKind, succeeds: bool)
    requires Apply(s, LGuardedWrite(w, kind, succeeds)).Some?
    ensures w in s.attempts
    ensures |Step(s, LGuardedWrite(w, kind, succeeds)).log| > |s.log| <==>
              && UnderDelivery(s, w) && s.jobs[w].state == Running
              && AuthorityOf(s, w).Some? && AuthorityOf(s, w).value.audit == s.attempts[w].authority.audit
  {
  }

  /** A delivery that was stopped by a fence stays stopped, and is settled by noting that alone. */
  lemma StoppedIsOnlyNoted(s: DB, action: Action, w: nat)
    requires w in s.attempts && s.attempts[w].stage == Stopping
    ensures w in Step(s, action).attempts ==> Step(s, action).attempts[w] == s.attempts[w]
    ensures action == LSettle(w) && w < |s.works| ==>
              Step(s, action) == s.(attempts := s.attempts - {w}, audits := s.audits + [Delivery(w, Stopped)])
  {
  }

  /** A delivery is started, by nobody who runs it already, when its job is pending or to be retried; it then always has its authority. */
  lemma StartAccepted(s: DB, w: nat)
    requires Reachable(s)
    ensures Apply(s, LStartDelivery(w)).Some? <==> UnderDelivery(s, w) && w !in s.attempts && s.jobs[w].state in {Pending, Retry}
    ensures Apply(s, LStartDelivery(w)).Some? ==>
              var t := Step(s, LStartDelivery(w));
              && t.jobs == s.jobs[w := s.jobs[w].(state := Running, attempts := s.jobs[w].attempts + 1)]
              && t.works == s.works && w in t.attempts && t.audits == s.audits + [Delivery(w, Started)]
  {
    if UnderDelivery(s, w) {
      AuthorityWaits(s, w);
    }
  }

  /** Recovery makes an interrupted delivery one that can be started, and leaves every other one alone. */
  lemma RecoveryAccepted(s: DB, w: nat)
    ensures Apply(s, LRecover(w)).Some? <==> UnderDelivery(s, w) && w !in s.attempts && s.jobs[w].state in {Pending, Retry, Running}
    ensures Apply(s, LRecover(w)).Some? ==>
              Step(s, LRecover(w)).jobs == if s.jobs[w].state == Running then s.jobs[w := s.jobs[w].(state := Retry)] else s.jobs
  {
  }

  /** A delivery that failed fails its work while it is still its own to fail, and is otherwise only noted. */
  lemma FailureIsSettled(s: DB, w: nat)
    requires Apply(s, LSettle(w)).Some?
    ensures w in s.attempts && s.attempts[w].stage in {Stopping, Failing}
    ensures var t := Step(s, LSettle(w));
            && w !in t.attempts && t.log == s.log
            && (t.works != s.works ==> UnderDelivery(s, w) && s.jobs[w].state == Running && s.attempts[w].stage == Failing)
            && (UnderDelivery(s, w) && s.jobs[w].state == Running && s.attempts[w].stage == Failing ==>
                  && t.works == s.works[w := s.works[w].(status := Failed, version := s.works[w].version + 1)]
                  && t.jobs == s.jobs[w := s.jobs[w].(state := JobFailed)])
  {
  }
}
