/**
 The control plane's transactions as the program performs them: row by row, in place, with a rollback when
 a check fails. Each is proved to commit exactly what its specification in ControlPlane says.
 */
module ControlPlaneStore {
  import opened StateMachine
  import opened Wrappers
  import opened ControlPlane

  /** A transaction commits its result, or leaves everything as it was. */
  ghost predicate Committed(before: DB, result: Option<DB>, ok: bool, after: DB) {
    ok == result.Some? && after == (if result.Some? then result.value else before)
  }

  class Database {
    var workers: seq<Worker>
    var works: seq<Work>
    var leases: seq<Lease>
    var credentials: seq<Credential>
    var jobs: map<nat, Job>
    var bundles: map<nat, string>
    var audits: seq<Audit>
    var attempts: map<nat, Attempt>
    var log: seq<Event>

    ghost function State(): DB
      reads this
    {
      DB(workers, works, leases, credentials, jobs, bundles, audits, attempts, log)
    }

    constructor ()
      ensures State() == EMPTY
    {
      workers, works, leases, credentials := [], [], [], [];
      jobs, bundles, audits, attempts, log := map[], map[], [], map[], [];
    }

    /* ---------- shared steps ---------- */

    method TransitionWorkItem(w: nat, target: Status, expected: int) returns (ok: bool)
      requires w < |works|
      modifies this`works
      ensures ok == MoveWork(old(works)[w], target, expected).Some?
      ensures ok <==> old(works)[w].version == expected && target in Allowed(old(works)[w].status)
      ensures works == if ok then old(works)[w := MoveWork(old(works)[w], target, expected).value] else old(works)
    {
      if works[w].version != expected {
        return false;
      }
      if target !in Allowed(works[w].status) {
        return false;
      }
      works := works[w := works[w].(status := target)];
      works := works[w := works[w].(version := works[w].version + 1)];
      return true;
    }

    /** Checks a lease under the locks of its worker and itself, and renews it. */
    method ValidateLease(l: nat, now: int, seconds: int) returns (ok: bool)
      modifies this`leases
      ensures ok == LeaseValid(old(State()), l, now)
      ensures ok <==> l < |old(leases)| && old(leases)[l].state == Active && old(leases)[l].expires >= now
                      && old(leases)[l].work < |works| && old(leases)[l].worker < |workers| && !workers[old(leases)[l].worker].quarantined
      ensures leases == if ok then old(leases)[l := old(leases)[l].(expires := now + seconds)] else old(leases)
      ensures State() == if ok then Renew(old(State()), l, now + seconds) else old(State())
    {
      if l >= |leases| || leases[l].state != Active || leases[l].worker >= |workers| || leases[l].work >= |works| {
        return false;
      }
      if workers[leases[l].worker].quarantined {
        return false;
      }
      if leases[l].expires < now {
        return false;
      }
      leases := leases[l := leases[l].(expires := now + seconds)];
      return true;
    }

    method ReturnLeaseResources(l: nat)
      requires l < |leases| && leases[l].worker < |workers|
      modifies this`workers, this`leases
      ensures State() == ReturnLease(old(State()), l)
    {
      var lease := leases[l];
      var worker := workers[lease.worker];
      worker := worker.(cpu := Min(worker.cpuTotal, worker.cpu + lease.amount.cpu));
      worker := worker.(memory := Min(worker.memoryTotal, worker.memory + lease.amount.memory));
      worker := worker.(disk := worker.disk + lease.amount.disk);
      worker := worker.(activeRuns := Max(0, worker.activeRuns - 1));
      workers := workers[lease.worker := worker];
      leases := leases[l := lease.(state := Returned)];
    }

    /* ---------- claiming ---------- */

    /** Queued, and not locked by another claim. */
    predicate Available(w: nat, locked: set<nat>)
      reads this
    {
      w < |works| && works[w].status == Queued && w !in locked
    }

    /** Claims the oldest queued work that no other transaction holds. */
    method ClaimNextWork(k: nat, amount: Usage, expires: int, locked: set<nat>) returns (claimed: Option<nat>)
      requires k < |workers| && Amount(amount)
      modifies this`works, this`leases, this`workers
      ensures claimed.Some? ==> (Claim(old(State()), k, claimed.value, amount, expires) == Some(State())
                                 && old(Available(claimed.value, locked))
                                 && forall v: nat :: v < claimed.value ==> !old(Available(v, locked)))
      ensures claimed.None? ==> (State() == old(State())
                                 && forall v: nat :: Available(v, locked) ==> Claim(State(), k, v, amount, expires).None?)
    {
      if workers[k].state != Online || workers[k].quarantined {
        return None;
      }
      if workers[k].cpu < amount.cpu || workers[k].memory < amount.memory || workers[k].disk < amount.disk {
        return None;
      }
      var w := 0;
      while w < |works| && !Available(w, locked)
        invariant 0 <= w <= |works|
        invariant forall v: nat :: v < w ==> !Available(v, locked)
      {
        w := w + 1;
      }
      if w == |works| {
        return None;
      }
      works := works[w := works[w].(owner := Some(k))];
      var ok := TransitionWorkItem(w, Provisioning, works[w].version);
      leases := leases + [Lease(w, k, Active, expires, amount)];
      var worker := workers[k];
      worker := worker.(cpu := worker.cpu - amount.cpu);
      worker := worker.(memory := worker.memory - amount.memory);
      worker := worker.(disk := worker.disk - amount.disk);
      worker := worker.(activeRuns := worker.activeRuns + 1);
      workers := workers[k := worker];
      assert works == old(works)[w := old(works)[w].(status := Provisioning, version := old(works)[w].version + 1, owner := Some(k))];
      return Some(w);
    }

    /* ---------- what the holder of a lease asks for ---------- */

    method TransitionRun(l: nat, now: int, seconds: int, target: Status, expected: int) returns (ok: bool)
      modifies this`leases, this`works
      ensures Committed(old(State()), WorkerTransition(old(State()), l, now, seconds, target, expected), ok, State())
    {
      var saved := leases;
      ok := ValidateLease(l, now, seconds);
      if ok {
        var w, worker := leases[l].work, leases[l].worker;
        var allowed := MayTransition(w, target, worker);
        if allowed {
          ok := TransitionWorkItem(w, target, expected);
        } else {
          ok := false;
        }
        if !ok {
          leases := saved;
        }
      }
    }

    /** Whether lease authority covers the transition: own work, worker edge, and for progress past COMMITTING an approved mock run. */
    method MayTransition(w: nat, target: Status, worker: nat) returns (allowed: bool)
      requires w < |works|
      ensures allowed == WorkerMay(State(), w, target, worker)
    {
      if works[w].owner != Some(worker) || target !in WorkerAllowed(works[w].status) {
        return false;
      }
      if target != PrCreated && target != Completed {
        return true;
      }
      if worker >= |workers| || !workers[worker].mock || w in jobs {
        return false;
      }
      var latest := LatestDecision(w);
      return latest.Some? && MockApproval(audits[latest.value], works[w]);
    }

    /** The newest pull-request decision about a work. */
    method LatestDecision(w: nat) returns (latest: Option<nat>)
      ensures latest == LatestPr(audits, w)
    {
      var i := |audits|;
      assert audits[..i] == audits;
      while i > 0
        invariant 0 <= i <= |audits|
        invariant LatestPr(audits, w) == LatestPr(audits[..i], w)
      {
        assert audits[..i][..i - 1] == audits[..i - 1];
        i := i - 1;
        if IsPrDecision(audits[i], w) {
          return Some(i);
        }
      }
      return None;
    }

    method ReleaseRun(l: nat, now: int, seconds: int) returns (ok: bool)
      modifies this`leases, this`workers
      ensures Committed(old(State()), Release(old(State()), l, now, seconds), ok, State())
    {
      var saved := leases;
      ok := ValidateLease(l, now, seconds);
      if ok {
        if !Terminal(works[leases[l].work].status) {
          leases := saved;
          return false;
        }
        ReturnLeaseResources(l);
      }
    }

    method UploadBundle(l: nat, now: int, seconds: int, digest: string) returns (ok: bool)
      requires IsDigest(digest)
      modifies this`leases, this`bundles
      ensures Committed(old(State()), Upload(old(State()), l, now, seconds, digest), ok, State())
    {
      var saved := leases;
      ok := ValidateLease(l, now, seconds);
      if ok {
        var w := leases[l].work;
        if works[w].status != Verifying && works[w].status != AwaitingApproval {
          leases := saved;
          return false;
        }
        bundles := bundles[w := digest];
      }
    }

    /* ---------- reconciliation ---------- */

    method RecordedReconciliation(w: nat, l: nat) returns (found: bool)
      ensures found == ReconciledBefore(audits, w, l)
    {
      for i := 0 to |audits|
        invariant forall j :: 0 <= j < i ==> audits[j] != Reconciled(w, l)
      {
        if audits[i] == Reconciled(w, l) {
          return true;
        }
      }
      return false;
    }

    /** A worker that restarted declares the cleanup of a terminal run. */
    method ReconcileTerminalLease(k: nat, l: nat, w: nat, expected: int) returns (ok: bool)
      modifies this`leases, this`workers, this`audits
      ensures Committed(old(State()), Reconcile(old(State()), k, l, w, expected), ok, State())
    {
      if k >= |workers| || workers[k].quarantined {
        return false;
      }
      if l >= |leases| || leases[l].worker != k || leases[l].work >= |works| || works[leases[l].work].owner != Some(k) {
        return false;
      }
      var work := works[leases[l].work];
      if leases[l].work != w || work.version != expected || !Terminal(work.status) {
        return false;
      }
      if leases[l].state != Active && leases[l].state != Returned {
        return false;
      }
      if w in jobs && jobs[w].state != JobCompleted && jobs[w].state != JobFailed {
        return false;
      }
      var recorded := RecordedReconciliation(w, l);
      if recorded {
        return leases[l].state == Returned;
      }
      if leases[l].state == Active {
        ReturnLeaseResources(l);
      }
      audits := audits + [Reconciled(w, l)];
      return true;
    }

    /* ---------- what people ask for ---------- */

    method CancelQueuedWork(w: nat, actor: Actor, expected: int) returns (ok: bool)
      modifies this`works, this`audits
      ensures Committed(old(State()), CancelQueued(old(State()), w, actor, expected), ok, State())
    {
      if w >= |works| || !Authorizes(actor, works[w], Administrator) {
        return false;
      }
      if works[w].status != Queued || works[w].owner.Some? {
        return false;
      }
      for l := 0 to |leases|
        invariant forall i :: 0 <= i < l ==> leases[i].work != w
        invariant State() == old(State())
      {
        if leases[l].work == w {
          return false;
        }
      }
      ok := TransitionWorkItem(w, Cancelled, expected);
      if ok {
        audits := audits + [CancelledInQueue(w)];
      }
    }

    method AddFeedback(w: nat, actor: Actor) returns (ok: bool)
      modifies this`works, this`audits
      ensures Committed(old(State()), GiveFeedback(old(State()), w, actor), ok, State())
    {
      if w >= |works| || !Authorizes(actor, works[w], Operator) {
        return false;
      }
      if works[w].owner.Some? && works[w].owner.value < |workers| && workers[works[w].owner.value].quarantined {
        return false;
      }
      if !FeedbackAllowed(works[w].status) {
        return false;
      }
      if ResumedByFeedback(works[w].status) {
        var resumed := TransitionWorkItem(w, Implementing, works[w].version);
      }
      audits := audits + [FeedbackGiven(w)];
      return true;
    }

    /** Whether an approval must be delivered centrally; `None` refuses it. */
    method ValidateDeliveryReady(w: nat, intact: bool) returns (needed: Option<bool>)
      requires w < |works|
      ensures needed == DeliveryNeeded(State(), w, intact)
    {
      var owner := works[w].owner;
      if owner.Some? && owner.value < |workers| && workers[owner.value].mock {
        return Some(false);
      }
      if w !in bundles {
        return None;
      }
      if !works[w].installation || !intact {
        return None;
      }
      return Some(true);
    }

    /** Queues the delivery of an approval: a completed job is never revived, any other one waits for this approval. */
    method QueueDeliveryJob(w: nat, audit: nat)
      modifies this`jobs
      ensures jobs == QueueDelivery(old(jobs), w, audit)
      ensures w in jobs && forall v :: v != w ==> (v in jobs <==> v in old(jobs)) && (v in jobs ==> jobs[v] == old(jobs)[v])
      ensures jobs[w].state == JobCompleted <==> w in old(jobs) && old(jobs)[w].state == JobCompleted
      ensures jobs[w].state == JobCompleted ==> jobs == old(jobs)
      ensures jobs[w].state != JobCompleted ==> jobs[w].approval == Some(audit) && jobs[w].state in {Pending, Retry}
    {
      if w !in jobs {
        jobs := jobs[w := Job(Pending, Some(audit), 0)];
        return;
      }
      if jobs[w].state != JobCompleted {
        jobs := jobs[w := jobs[w].(state := Retry)];
        jobs := jobs[w := jobs[w].(approval := Some(audit))];
      }
    }

    /** Where a decision moves the work; `None` refuses it. */
    method ChooseTarget(w: nat, kind: Kind, decision: Decision, expected: Option<int>,
                        minutes: int) returns (target: Option<Option<Status>>)
      requires w < |works|
      ensures target == DecisionTarget(works[w], kind, decision, expected, minutes)
    {
      if kind == PullRequest {
        if works[w].status != AwaitingApproval {
          return None;
        }
        if decision == Approve {
          return Some(Some(Committing));
        }
        return Some(Some(Implementing));
      }
      if kind == Budget {
        if expected.None? || expected.value != works[w].version {
          return None;
        }
        if works[w].status != BudgetExhausted {
          return None;
        }
        if decision == Approve {
          if minutes < 15 || minutes > 24 * 60 {
            return None;
          }
          return Some(Some(Implementing));
        }
      }
      return Some(None);
    }

    method CheckDecision(w: nat, actor: Actor, transport: Transport, kind: Kind, decision: Decision) returns (ok: bool)
      ensures ok == MayDecide(State(), w, actor, transport, kind, decision)
    {
      if w >= |works| || !Authorizes(actor, works[w], Approver) {
        return false;
      }
      if works[w].owner.Some? && works[w].owner.value < |workers| && workers[works[w].owner.value].quarantined {
        return false;
      }
      return transport == Web || (kind == PullRequest && decision == Approve);
    }

    method JudgeDecision(w: nat, kind: Kind, decision: Decision, expected: Option<int>, minutes: int,
                         intact: bool) returns (verdict: Option<Verdict>)
      requires w < |works|
      ensures verdict == Judge(State(), w, kind, decision, expected, minutes, intact)
      ensures verdict.Some? && verdict.value.target.Some? ==> verdict.value.target.value in Allowed(works[w].status)
    {
      var target := ChooseTarget(w, kind, decision, expected, minutes);
      if target.None? {
        return None;
      }
      if kind == PullRequest && decision == Approve {
        var needed := ValidateDeliveryReady(w, intact);
        if needed.None? {
          return None;
        }
        return Some(Verdict(target.value, needed.value));
      }
      return Some(Verdict(target.value, false));
    }

    /** Moves the work, writes the audit and, when needed, queues the delivery that rests on it. */
    method RecordDecision(w: nat, actor: Actor, transport: Transport, kind: Kind, decision: Decision,
                          target: Option<Status>, deliver: bool)
      requires w < |works| && (target.Some? ==> target.value in Allowed(works[w].status))
      modifies this`works, this`audits, this`jobs
      ensures State() == Decided(old(State()), w, actor, transport, kind, decision,
                                 if target.None? then old(works)[w] else old(works)[w].(status := target.value, version := old(works)[w].version + 1), deliver)
    {
      var before := works[w].status;
      if target.Some? {
        var moved := TransitionWorkItem(w, target.value, works[w].version);
      }
      var digest := if deliver && w in bundles then Some(bundles[w]) else None;
      audits := audits + [Approval(w, works[w].scope, transport, actor.effective, kind, decision, before, works[w].status,
                                   works[w].version, deliver, digest)];
      if deliver {
        QueueDeliveryJob(w, |audits| - 1);
      }
      assert old(works)[w := old(works)[w]] == old(works);
    }

    /** A decision from the web or from Slack. */
    method DecideApproval(w: nat, actor: Actor, transport: Transport, kind: Kind, decision: Decision,
                          expected: Option<int>, minutes: int, intact: bool) returns (ok: bool)
      modifies this`works, this`audits, this`jobs
      ensures Committed(old(State()), Decide(old(State()), w, actor, transport, kind, decision, expected, minutes, intact), ok, State())
    {
      var permitted := CheckDecision(w, actor, transport, kind, decision);
      if !permitted {
        return false;
      }
      var verdict := JudgeDecision(w, kind, decision, expected, minutes, intact);
      if verdict.None? {
        return false;
      }
      RecordDecision(w, actor, transport, kind, decision, verdict.value.target, verdict.value.deliver);
      return true;
    }

    /* ---------- delivery ---------- */

    /** Takes the locks of a delivery: worker, work, job. */
    method LockDelivery(w: nat, states: set<JobState>) returns (ok: bool)
      ensures ok == Lockable(State(), w, states)
    {
      if w >= |works| || works[w].owner.None? {
        return false;
      }
      var k := works[w].owner.value;
      if k >= |workers| || workers[k].quarantined {
        return false;
      }
      return w in jobs && works[w].status == Committing && jobs[w].state in states;
    }

    method Fail(w: nat)
      requires w < |works| && w in jobs && works[w].status == Committing
      modifies this`works, this`jobs, this`audits
      ensures FailDelivery(old(State()), w) == Some(State())
    {
      jobs := jobs[w := jobs[w].(state := JobFailed)];
      var moved := TransitionWorkItem(w, Failed, works[w].version);
      audits := audits + [Delivery(w, DeliveryFailed)];
    }

    /** Takes a delivery up: marks the job running, then checks the approval it rests on. */
    method Start(w: nat) returns (ok: bool)
      modifies this`works, this`jobs, this`audits, this`attempts
      ensures Committed(old(State()), StartDelivery(old(State()), w), ok, State())
    {
      if w in attempts {
        return false;
      }
      ok := LockDelivery(w, {Pending, Retry});
      if ok {
        jobs := jobs[w := jobs[w].(state := Running)];
        jobs := jobs[w := jobs[w].(attempts := jobs[w].attempts + 1)];
        assert jobs == old(jobs)[w := old(jobs)[w].(state := Running, attempts := old(jobs)[w].attempts + 1)];
        var authority := AuthorityOf(DB(workers, works, leases, credentials, jobs, bundles, audits, attempts, log), w);
        if authority.None? {
          Fail(w);
        } else {
          audits := audits + [Delivery(w, Started)];
          attempts := attempts[w := Attempt(authority.value, Begun)];
        }
      }
    }

    /** Both transitions of a finished delivery. */
    method PublishWork(w: nat)
      requires w < |works| && works[w].status == Committing
      modifies this`works
      ensures works == old(works)[w := old(works)[w].(status := Completed, version := old(works)[w].version + 2)]
    {
      var created := TransitionWorkItem(w, PrCreated, works[w].version);
      var completed := TransitionWorkItem(w, Completed, works[w].version);
    }

    /** Finishes a published delivery: two transitions, the job and the audit in one commit. */
    method Finish(w: nat) returns (ok: bool)
      modifies this`works, this`jobs, this`audits, this`attempts
      ensures Committed(old(State()), Finalize(old(State()), w), ok, State())
    {
      if w !in attempts || attempts[w].stage != Published {
        return false;
      }
      var locked := LockDelivery(w, {Running});
      if !locked {
        attempts := attempts[w := attempts[w].(stage := Stopping)];
        return true;
      }
      var authority := AuthorityOf(DB(workers, works, leases, credentials, jobs, bundles, audits, attempts, log), w);
      if authority != Some(attempts[w].authority) {
        attempts := attempts[w := attempts[w].(stage := Failing)];
        return true;
      }
      PublishWork(w);
      jobs := jobs[w := jobs[w].(state := JobCompleted)];
      audits := audits + [Delivery(w, Finished)];
      attempts := attempts - {w};
      return true;
    }

    /** One guarded external write; the locks are held from the check to the end of the write. */
    method GuardWrite(w: nat, kind: WriteKind, succeeds: bool) returns (ok: bool)
      modifies this`attempts, this`log
      ensures Committed(old(State()), GuardedWrite(old(State()), w, kind, succeeds), ok, State())
    {
      if w !in attempts || !WriteDue(attempts[w].stage, kind) {
        return false;
      }
      var locked := LockDelivery(w, {Running});
      if !locked {
        attempts := attempts[w := attempts[w].(stage := Stopping)];
        return true;
      }
      var authority := AuthorityOf(DB(workers, works, leases, credentials, jobs, bundles, audits, attempts, log), w);
      if authority.None? || authority.value.audit != attempts[w].authority.audit {
        attempts := attempts[w := attempts[w].(stage := Failing)];
        return true;
      }
      log := log + [Write(kind, w, works[w].owner.value, authority.value.audit, works[w].status, works[w].version, jobs[w].state, bundles[w])];
      attempts := attempts[w := attempts[w].(stage := if succeeds then AfterWrite(kind) else Failing)];
      return true;
    }

    /** Records how a delivery that did not finish ended, without undoing what fenced it. */
    method SettleDelivery(w: nat) returns (ok: bool)
      modifies this`works, this`jobs, this`audits, this`attempts
      ensures Committed(old(State()), Settle(old(State()), w), ok, State())
    {
      if w !in attempts || w >= |works| || (attempts[w].stage != Stopping && attempts[w].stage != Failing) {
        return false;
      }
      var failing := attempts[w].stage == Failing;
      var locked := LockDelivery(w, {Running});
      attempts := attempts - {w};
      if failing && locked {
        Fail(w);
      } else {
        audits := audits + [Delivery(w, Stopped)];
      }
      return true;
    }

    /** After a restart, an interrupted delivery becomes a retry. */
    method RecoverDelivery(w: nat) returns (ok: bool)
      modifies this`jobs, this`audits
      ensures Committed(old(State()), Recover(old(State()), w), ok, State())
    {
      if w in attempts {
        return false;
      }
      ok := LockDelivery(w, {Pending, Retry, Running});
      if ok && jobs[w].state == Running {
        jobs := jobs[w := jobs[w].(state := Retry)];
        audits := audits + [Delivery(w, Interrupted)];
      }
    }

    /* ---------- credentials ---------- */

    /** The new credential authenticates until it expires; nobody else gains or loses authority. */
    method MintCredential(k: nat, expires: int) returns (ok: bool)
      modifies this`workers, this`credentials
      ensures Committed(old(State()), Mint(old(State()), k, expires), ok, State())
      ensures forall c: nat, now :: Authenticates(State(), c, now) <==>
                old(Authenticates(State(), c, now)) || (ok && c == |old(credentials)| && now < expires)
      ensures |workers| == |old(workers)| && forall j :: 0 <= j < |workers| && j != k ==> workers[j] == old(workers)[j]
      ensures ok ==> workers[k] == old(workers)[k].(credentialRequired := true) && !workers[k].quarantined
    {
      if k >= |workers| || workers[k].quarantined {
        return false;
      }
      workers := workers[k := workers[k].(credentialRequired := true)];
      credentials := credentials + [Credential(k, expires, false)];
      return true;
    }

    /** The new credential authenticates for its lifetime, the old one at most for the overlap. */
    method RotateCredential(c: nat, now: int, lifetime: int, overlap: int) returns (ok: bool)
      modifies this`workers, this`credentials
      ensures ok ==> forall d: nat, at :: Authenticates(State(), d, at) <==>
                || (d == |old(credentials)| && at < now + lifetime)
                || (old(Authenticates(State(), d, at)) && (d == c ==> at < now + overlap))
      ensures Committed(old(State()), Rotate(old(State()), c, now, lifetime, overlap), ok, State())
    {
      if c >= |credentials| || credentials[c].worker >= |workers| || credentials[c].revoked || credentials[c].expires <= now {
        return false;
      }
      ok := MintCredential(credentials[c].worker, now + lifetime);
      if ok {
        credentials := credentials[c := credentials[c].(expires := Min(credentials[c].expires, now + overlap))];
      }
    }

    /** The credential never authenticates again, and every other one as before. */
    method RevokeCredential(c: nat) returns (ok: bool)
      modifies this`credentials
      ensures ok ==> forall d: nat, at :: Authenticates(State(), d, at) <==> old(Authenticates(State(), d, at)) && d != c
      ensures Committed(old(State()), Revoke(old(State()), c), ok, State())
    {
      if c >= |credentials| {
        return false;
      }
      if credentials[c].revoked {
        assert credentials[c := credentials[c].(revoked := true)] == credentials;
        return true;
      }
      credentials := credentials[c := credentials[c].(revoked := true)];
      return true;
    }

    /* ---------- quarantine ---------- */

    method RevokeCredentials(k: nat)
      modifies this`credentials
      ensures |credentials| == |old(credentials)|
      ensures forall c :: 0 <= c < |credentials| ==> credentials[c] == RevokeOf(k, old(credentials)[c])
    {
      for i := 0 to |credentials|
        invariant |credentials| == |old(credentials)|
        invariant forall c :: 0 <= c < |credentials| ==> credentials[c] == if c < i then RevokeOf(k, old(credentials)[c]) else old(credentials)[c]
      {
        if credentials[i].worker == k && !credentials[i].revoked {
          credentials := credentials[i := credentials[i].(revoked := true)];
        }
      }
    }

    /** Ends the authority of every active lease, and keeps its reservation. */
    method WithholdLeases(k: nat, now: int)
      modifies this`leases
      ensures |leases| == |old(leases)|
      ensures forall l :: 0 <= l < |leases| ==> leases[l] == WithholdOf(k, now, old(leases)[l])
    {
      for i := 0 to |leases|
        invariant |leases| == |old(leases)|
        invariant forall l :: 0 <= l < |leases| ==> leases[l] == if l < i then WithholdOf(k, now, old(leases)[l]) else old(leases)[l]
      {
        if leases[i].worker == k && leases[i].state == Active {
          leases := leases[i := leases[i].(state := Withheld)];
          leases := leases[i := leases[i].(expires := now)];
        }
      }
    }

    /** Fences the delivery of one work and ends the work, if it belongs to the worker. */
    method EndWork(i: nat, k: nat)
      requires i < |works|
      modifies this`works, this`jobs
      ensures works == old(works)[i := EndOf(k, old(works)[i])]
      ensures jobs == if i in old(jobs) then old(jobs)[i := FenceOf(k, old(works), i, old(jobs)[i])] else old(jobs)
    {
      if works[i].owner != Some(k) {
        assert works[i := works[i]] == works && (i in jobs ==> jobs[i := jobs[i]] == jobs);
        return;
      }
      if i in jobs && InProgress(jobs[i].state) {
        jobs := jobs[i := jobs[i].(state := JobQuarantined)];
      }
      if !Terminal(works[i].status) {
        var target := if works[i].status == Committing || works[i].status == PrCreated then Failed else Cancelled;
        var ended := TransitionWorkItem(i, target, works[i].version);
      }
    }

    /** Fences the delivery of every work of the worker and ends the work. */
    method EndWorks(k: nat)
      modifies this`works, this`jobs
      ensures |works| == |old(works)| && jobs.Keys == old(jobs).Keys
      ensures forall w :: 0 <= w < |works| ==> works[w] == EndOf(k, old(works)[w])
      ensures forall w :: w in jobs ==> jobs[w] == FenceOf(k, old(works), w, old(jobs)[w])
    {
      for i := 0 to |works|
        invariant |works| == |old(works)| && jobs.Keys == old(jobs).Keys
        invariant forall w :: 0 <= w < |works| ==> works[w] == if w < i then EndOf(k, old(works)[w]) else old(works)[w]
        invariant forall w :: w in jobs ==> jobs[w] == if w < i then FenceOf(k, old(works), w, old(jobs)[w]) else old(jobs)[w]
      {
        EndWork(i, k);
      }
    }

    /** Revokes a worker's credentials and leases, fences its deliveries and ends its works, all in one commit. */
    method QuarantineWorker(k: nat, now: int) returns (ok: bool)
      modifies this`workers, this`credentials, this`leases, this`works, this`jobs, this`log
      ensures Committed(old(State()), Quarantine(old(State()), k, now), ok, State())
    {
      if k >= |workers| {
        return false;
      }
      if workers[k].quarantined {
        return true;
      }
      workers := workers[k := workers[k].(quarantined := true)];
      workers := workers[k := workers[k].(credentialRequired := true)];
      workers := workers[k := workers[k].(state := Offline)];
      RevokeCredentials(k);
      WithholdLeases(k, now);
      EndWorks(k);
      log := log + [Quarantined(k)];
      ghost var expected := Quarantine(old(State()), k, now).value;
      assert workers == expected.workers;
      assert credentials == expected.credentials;
      assert leases == expected.leases;
      assert works == expected.works;
      assert jobs == expected.jobs;
      return true;
    }
  }

  function Min(x: int, y: int): int {
    if x < y then x else y
  }

  function Max(x: int, y: int): int {
    if x < y then y else x
  }
}
