/**
 What every run of the control plane keeps: rows refer to rows, an approval covers exactly one commit
 of one bundle, deliveries stay bound to their approval, and quarantine fences everything of its worker.
 */
module ControlPlaneInvariants {
  import opened StateMachine
  import opened Wrappers
  import opened ControlPlane

  /* ---------- rows ---------- */

  ghost predicate WorkRow(work: Work, workers: nat) {
    && (work.owner.Some? ==> work.owner.value < workers)
    && (work.owner.None? ==> work.status == Queued || work.status == Cancelled)
    && (work.status == Queued ==> work.owner.None?)
  }

  ghost predicate WorksOk(works: seq<Work>, workers: nat) {
    forall w :: 0 <= w < |works| ==> WorkRow(works[w], workers)
  }

  ghost predicate LeaseRow(lease: Lease, works: seq<Work>) {
    && lease.work < |works| && works[lease.work].owner == Some(lease.worker) && Amount(lease.amount)
    && (lease.state != Active ==> Terminal(works[lease.work].status))
  }

  /** Every lease belongs to the worker its work was given to, ends only after its work, and is the only one of its work. */
  ghost predicate LeasesOk(leases: seq<Lease>, works: seq<Work>) {
    && (forall l :: 0 <= l < |leases| ==> LeaseRow(leases[l], works))
    && (forall i, j :: 0 <= i < j < |leases| ==> leases[i].work != leases[j].work)
  }

  ghost predicate CredentialsOk(credentials: seq<Credential>, workers: nat) {
    forall c :: 0 <= c < |credentials| ==> credentials[c].worker < workers
  }

  /* ---------- approvals ---------- */

  /** A recorded decision to open the pull request. */
  ghost predicate Grants(audit: Audit) {
    audit.Approval? && audit.kind == PullRequest && audit.decision == Approve
  }

  /** Transitions made since the approval. */
  function Since(status: Status): nat {
    match status
    case PrCreated => 1
    case Completed => 2
    case _ => 0
  }

  ghost predicate GrantOk(audit: Audit, works: seq<Work>)
    requires Grants(audit)
  {
    && audit.work < |works|
    && (audit.effective == Approver || audit.effective == Administrator)
    && audit.scope == works[audit.work].scope
    && audit.before == AwaitingApproval && audit.after == Committing
    && (Approved(works[audit.work].status) || works[audit.work].status == Failed)
    && (Approved(works[audit.work].status) ==> works[audit.work].version == audit.version + Since(works[audit.work].status))
  }

  /** Every approval covers exactly one commit of its work. */
  ghost predicate GrantsOk(audits: seq<Audit>, works: seq<Work>) {
    forall a :: 0 <= a < |audits| && Grants(audits[a]) ==> GrantOk(audits[a], works)
  }

  /** An approval is the last pull-request decision of its work. */
  ghost predicate GrantsLast(audits: seq<Audit>) {
    forall a, b :: 0 <= a < b < |audits| && Grants(audits[a]) ==> !IsPrDecision(audits[b], audits[a].work)
  }

  ghost predicate IsGrantOf(audits: seq<Audit>, a: nat, w: nat) {
    a < |audits| && Grants(audits[a]) && audits[a].work == w
  }

  /** Nothing is committed, published or completed without an approval. */
  ghost predicate ApprovalsOk(audits: seq<Audit>, works: seq<Work>) {
    forall w :: 0 <= w < |works| && Approved(works[w].status) ==> exists a :: IsGrantOf(audits, a, w)
  }

  /** An approval for central delivery names the uploaded bundle; one for a mock run names none. */
  ghost predicate BundleOk(audit: Audit, bundles: map<nat, string>, jobs: map<nat, Job>)
    requires Grants(audit)
  {
    && audit.queued == (audit.work in jobs)
    && (audit.queued ==> audit.work in bundles && audit.bundle == Some(bundles[audit.work]))
    && (!audit.queued ==> audit.bundle == None)
  }

  ghost predicate DigestsOk(bundles: map<nat, string>) {
    forall w :: w in bundles ==> IsDigest(bundles[w])
  }

  ghost predicate BundlesOk(audits: seq<Audit>, bundles: map<nat, string>, jobs: map<nat, Job>) {
    forall a :: 0 <= a < |audits| && Grants(audits[a]) ==> BundleOk(audits[a], bundles, jobs)
  }

  /* ---------- deliveries ---------- */

  ghost predicate JobOk(w: nat, job: Job, works: seq<Work>, audits: seq<Audit>) {
    && w < |works|
    && (job.state == JobCompleted <==> works[w].status == Completed)
    && (works[w].status == Committing ==> InProgress(job.state))
    && works[w].status != PrCreated
    && job.approval.Some? && IsGrantOf(audits, job.approval.value, w)
  }

  /** A job delivers the approval of its work, and ends with it. */
  ghost predicate JobsOk(jobs: map<nat, Job>, works: seq<Work>, audits: seq<Audit>) {
    forall w :: w in jobs ==> JobOk(w, jobs[w], works, audits)
  }

  /** The authority that an approval for central delivery gives. */
  function Pinned(audits: seq<Audit>, approval: Option<nat>): Option<Authority> {
    if approval.Some? && approval.value < |audits| && audits[approval.value].Approval? && audits[approval.value].bundle.Some?
    then Some(Authority(approval.value, audits[approval.value].bundle.value, audits[approval.value].version)) else None
  }

  /** A running delivery acts on the authority of the approval, and its job is running or fenced. */
  ghost predicate AttemptsOk(attempts: map<nat, Attempt>, jobs: map<nat, Job>, audits: seq<Audit>) {
    forall w :: w in attempts ==>
                  w in jobs && (jobs[w].state == Running || jobs[w].state == JobQuarantined)
                  && Some(attempts[w].authority) == Pinned(audits, jobs[w].approval)
  }

  /* ---------- quarantine ---------- */

  ghost predicate IsQuarantined(workers: seq<Worker>, k: nat) {
    k < |workers| && workers[k].quarantined
  }

  ghost predicate WorkersOk(workers: seq<Worker>) {
    forall k :: 0 <= k < |workers| && workers[k].quarantined ==> workers[k].state == Offline && workers[k].credentialRequired
  }

  ghost predicate CredentialsFenced(workers: seq<Worker>, credentials: seq<Credential>) {
    forall c :: 0 <= c < |credentials| && IsQuarantined(workers, credentials[c].worker) ==> credentials[c].revoked
  }

  ghost predicate LeasesFenced(workers: seq<Worker>, leases: seq<Lease>) {
    forall l :: 0 <= l < |leases| && IsQuarantined(workers, leases[l].worker) ==> leases[l].state != Active
  }

  ghost predicate WorksFenced(workers: seq<Worker>, works: seq<Work>) {
    forall w :: 0 <= w < |works| && works[w].owner.Some? && IsQuarantined(workers, works[w].owner.value) ==> Terminal(works[w].status)
  }

  ghost predicate JobsFenced(workers: seq<Worker>, works: seq<Work>, jobs: map<nat, Job>) {
    forall w :: w in jobs && w < |works| && works[w].owner.Some? && IsQuarantined(workers, works[w].owner.value) ==>
                  !InProgress(jobs[w].state)
  }

  /* ---------- external writes ---------- */

  /** A write began on committing work, in a running job, at the approved version, with the approved bundle. */
  ghost predicate WriteOk(event: Event, audits: seq<Audit>, works: seq<Work>)
    requires event.Write?
  {
    && event.work < |works| && works[event.work].owner == Some(event.worker)
    && event.status == Committing && event.job == Running
    && IsGrantOf(audits, event.audit, event.work)
    && audits[event.audit].queued && audits[event.audit].version == event.version
    && audits[event.audit].bundle == Some(event.digest)
  }

  ghost predicate WritesOk(log: seq<Event>, audits: seq<Audit>, works: seq<Work>) {
    forall i :: 0 <= i < |log| && log[i].Write? ==> WriteOk(log[i], audits, works)
  }

  /** No write for a worker follows its quarantine. */
  ghost predicate FencedWrites(log: seq<Event>) {
    forall i, j :: 0 <= i < j < |log| && log[i].Quarantined? && log[j].Write? ==> log[i].worker != log[j].worker
  }

  ghost predicate LogOk(log: seq<Event>, workers: seq<Worker>) {
    && FencedWrites(log)
    && (forall i :: 0 <= i < |log| && log[i].Quarantined? ==> IsQuarantined(workers, log[i].worker))
  }

  ghost predicate Inv(s: DB) {
    && WorksOk(s.works, |s.workers|) && LeasesOk(s.leases, s.works) && CredentialsOk(s.credentials, |s.workers|)
    && GrantsOk(s.audits, s.works) && GrantsLast(s.audits) && ApprovalsOk(s.audits, s.works) && BundlesOk(s.audits, s.bundles, s.jobs)
    && DigestsOk(s.bundles)
    && JobsOk(s.jobs, s.works, s.audits) && AttemptsOk(s.attempts, s.jobs, s.audits)
    && WorkersOk(s.workers) && CredentialsFenced(s.workers, s.credentials) && LeasesFenced(s.workers, s.leases)
    && WorksFenced(s.workers, s.works) && JobsFenced(s.workers, s.works, s.jobs)
    && WritesOk(s.log, s.audits, s.works) && LogOk(s.log, s.workers)
  }

  /* ---------- changes that transactions are made of ---------- */

  /** Neither an approval nor a pull-request decision about approved work. */
  ghost predicate Unrelated(audits: seq<Audit>, more: Audit) {
    !Grants(more) && forall a :: 0 <= a < |audits| && Grants(audits[a]) ==> !IsPrDecision(more, audits[a].work)
  }

  lemma RecordingKeepsGrants(audits: seq<Audit>, more: Audit, works: seq<Work>, bundles: map<nat, string>, jobs: map<nat, Job>)
    requires GrantsOk(audits, works) && GrantsLast(audits) && BundlesOk(audits, bundles, jobs)
    requires Unrelated(audits, more)
    ensures GrantsOk(audits + [more], works) && GrantsLast(audits + [more]) && BundlesOk(audits + [more], bundles, jobs)
  {
  }

  /** Evidence of an approval stays evidence: the audit log only grows. */
  lemma RecordingKeepsEvidence(audits: seq<Audit>, more: Audit, works: seq<Work>, jobs: map<nat, Job>)
    requires ApprovalsOk(audits, works) && JobsOk(jobs, works, audits)
    ensures ApprovalsOk(audits + [more], works) && JobsOk(jobs, works, audits + [more])
  {
    forall w | 0 <= w < |works| && Approved(works[w].status)
      ensures exists a :: IsGrantOf(audits + [more], a, w)
    {
      var a :| IsGrantOf(audits, a, w);
      assert IsGrantOf(audits + [more], a, w);
    }
  }

  lemma RecordingKeepsWrites(audits: seq<Audit>, more: Audit, works: seq<Work>, jobs: map<nat, Job>,
                             attempts: map<nat, Attempt>, log: seq<Event>)
    requires AttemptsOk(attempts, jobs, audits) && WritesOk(log, audits, works)
    ensures AttemptsOk(attempts, jobs, audits + [more]) && WritesOk(log, audits + [more], works)
  {
  }

  lemma RecordingKeeps(s: DB, more: Audit)
    requires Inv(s) && Unrelated(s.audits, more)
    ensures Inv(s.(audits := s.audits + [more]))
  {
    RecordingKeepsGrants(s.audits, more, s.works, s.bundles, s.jobs);
    RecordingKeepsEvidence(s.audits, more, s.works, s.jobs);
    RecordingKeepsWrites(s.audits, more, s.works, s.jobs, s.attempts, s.log);
  }

  function Moved(work: Work, target: Status): Work {
    work.(status := target, version := work.version + 1)
  }

  /** Moving a work along an edge that neither starts it, approves it nor publishes a central delivery. */
  ghost predicate PlainMove(s: DB, w: nat, target: Status) {
    && w < |s.works| && target in Allowed(s.works[w].status) && !Terminal(s.works[w].status)
    && target != Provisioning && target != Committing
    && (Approved(target) ==> w !in s.jobs)
  }

  lemma MovingKeepsApprovals(s: DB, w: nat, target: Status)
    requires Inv(s) && PlainMove(s, w, target)
    ensures GrantsOk(s.audits, s.works[w := Moved(s.works[w], target)])
    ensures ApprovalsOk(s.audits, s.works[w := Moved(s.works[w], target)])
  {
  }

  lemma MovingKeepsRows(s: DB, w: nat, target: Status)
    requires Inv(s) && PlainMove(s, w, target)
    ensures WorksOk(s.works[w := Moved(s.works[w], target)], |s.workers|)
    ensures LeasesOk(s.leases, s.works[w := Moved(s.works[w], target)])
    ensures WritesOk(s.log, s.audits, s.works[w := Moved(s.works[w], target)])
  {
  }

  lemma MovingKeepsJobs(s: DB, w: nat, target: Status)
    requires Inv(s) && PlainMove(s, w, target)
    ensures JobsOk(s.jobs, s.works[w := Moved(s.works[w], target)], s.audits)
  {
  }

  lemma MovingKeepsFences(s: DB, w: nat, target: Status)
    requires Inv(s) && PlainMove(s, w, target)
    ensures WorksFenced(s.workers, s.works[w := Moved(s.works[w], target)])
    ensures JobsFenced(s.workers, s.works[w := Moved(s.works[w], target)], s.jobs)
  {
  }

  lemma MovingKeeps(s: DB, w: nat, target: Status)
    requires Inv(s) && PlainMove(s, w, target)
    ensures Inv(SetWork(s, w, Moved(s.works[w], target)))
  {
    MovingKeepsApprovals(s, w, target);
    MovingKeepsRows(s, w, target);
    MovingKeepsJobs(s, w, target);
    MovingKeepsFences(s, w, target);
  }

  /** Changing how far a job has come. */
  lemma JobKeepsBundles(audits: seq<Audit>, bundles: map<nat, string>, jobs: map<nat, Job>, w: nat, job: Job)
    requires BundlesOk(audits, bundles, jobs) && w in jobs
    ensures BundlesOk(audits, bundles, jobs[w := job])
  {
  }

  lemma JobKeepsDeliveries(jobs: map<nat, Job>, works: seq<Work>, audits: seq<Audit>, w: nat, job: Job)
    requires JobsOk(jobs, works, audits) && JobOk(w, job, works, audits)
    ensures JobsOk(jobs[w := job], works, audits)
  {
  }

  lemma JobKeepsAttempts(attempts: map<nat, Attempt>, jobs: map<nat, Job>, audits: seq<Audit>, w: nat, job: Job)
    requires AttemptsOk(attempts, jobs, audits) && w in jobs && job.approval == jobs[w].approval
    requires w in attempts ==> job.state == Running || job.state == JobQuarantined
    ensures AttemptsOk(attempts, jobs[w := job], audits)
  {
  }

  lemma JobKeepsFences(workers: seq<Worker>, works: seq<Work>, jobs: map<nat, Job>, w: nat, job: Job)
    requires JobsFenced(workers, works, jobs) && w in jobs && (InProgress(job.state) ==> InProgress(jobs[w].state))
    ensures JobsFenced(workers, works, jobs[w := job])
  {
  }

  lemma JobKeeps(s: DB, w: nat, job: Job)
    requires Inv(s) && w in s.jobs && job.approval == s.jobs[w].approval && JobOk(w, job, s.works, s.audits)
    requires w in s.attempts ==> job.state == Running || job.state == JobQuarantined
    requires InProgress(job.state) ==> InProgress(s.jobs[w].state)
    ensures Inv(s.(jobs := s.jobs[w := job]))
  {
    JobKeepsBundles(s.audits, s.bundles, s.jobs, w, job);
    JobKeepsDeliveries(s.jobs, s.works, s.audits, w, job);
    JobKeepsAttempts(s.attempts, s.jobs, s.audits, w, job);
    JobKeepsFences(s.workers, s.works, s.jobs, w, job);
  }

  lemma AttemptKeeps(s: DB, w: nat, attempt: Attempt)
    requires Inv(s) && w in s.jobs && s.jobs[w].state in {Running, JobQuarantined}
    requires Some(attempt.authority) == Pinned(s.audits, s.jobs[w].approval)
    ensures Inv(s.(attempts := s.attempts[w := attempt]))
  {
  }

  lemma StagingKeeps(s: DB, w: nat, stage: Stage)
    requires Inv(s) && w in s.attempts
    ensures Inv(SetStage(s, w, stage))
  {
    AttemptKeeps(s, w, s.attempts[w].(stage := stage));
  }

  lemma RenewingKeeps(s: DB, l: nat, expires: int)
    requires Inv(s) && l < |s.leases|
    ensures Inv(Renew(s, l, expires))
  {
  }

  lemma ReturningKeeps(s: DB, l: nat)
    requires Inv(s) && l < |s.leases| && Terminal(s.works[s.leases[l].work].status)
    ensures Inv(ReturnLease(s, l))
  {
  }

  /** A work that waits, or was never claimed, has no approval and no delivery. */
  lemma UnapprovedIsFresh(s: DB, w: nat)
    requires Inv(s) && w < |s.works| && !Approved(s.works[w].status) && s.works[w].status != Failed
    ensures w !in s.jobs && w !in s.attempts
    ensures forall a :: 0 <= a < |s.audits| && Grants(s.audits[a]) ==> s.audits[a].work != w
  {
  }

  lemma ClaimingKeepsRows(s: DB, k: nat, w: nat, lease: Lease)
    requires Inv(s) && k < |s.workers| && w < |s.works| && s.works[w].status == Queued
    requires lease.work == w && lease.worker == k && lease.state == Active && Amount(lease.amount)
    ensures WorksOk(s.works[w := Moved(s.works[w], Provisioning).(owner := Some(k))], |s.workers|)
    ensures LeasesOk(s.leases + [lease], s.works[w := Moved(s.works[w], Provisioning).(owner := Some(k))])
  {
  }

  lemma ClaimingKeepsApprovals(s: DB, k: nat, w: nat)
    requires Inv(s) && w < |s.works| && s.works[w].status == Queued
    ensures GrantsOk(s.audits, s.works[w := Moved(s.works[w], Provisioning).(owner := Some(k))])
    ensures ApprovalsOk(s.audits, s.works[w := Moved(s.works[w], Provisioning).(owner := Some(k))])
    ensures JobsOk(s.jobs, s.works[w := Moved(s.works[w], Provisioning).(owner := Some(k))], s.audits)
  {
    UnapprovedIsFresh(s, w);
  }

  lemma ClaimingKeepsFences(s: DB, k: nat, w: nat)
    requires Inv(s) && k < |s.workers| && w < |s.works| && s.works[w].status == Queued && !s.workers[k].quarantined
    ensures WritesOk(s.log, s.audits, s.works[w := Moved(s.works[w], Provisioning).(owner := Some(k))])
    ensures WorksFenced(s.workers, s.works[w := Moved(s.works[w], Provisioning).(owner := Some(k))])
    ensures JobsFenced(s.workers, s.works[w := Moved(s.works[w], Provisioning).(owner := Some(k))], s.jobs)
  {
  }

  /** Recording the approval of a waiting work and committing it. */
  lemma GrantingKeepsGrants(s: DB, w: nat, more: Audit)
    requires Inv(s) && w < |s.works| && s.works[w].status == AwaitingApproval
    requires Grants(more) && more.work == w && GrantOk(more, s.works[w := Moved(s.works[w], Committing)])
    ensures GrantsOk(s.audits + [more], s.works[w := Moved(s.works[w], Committing)])
    ensures GrantsLast(s.audits + [more])
  {
    UnapprovedIsFresh(s, w);
  }

  lemma GrantingKeepsApprovals(s: DB, w: nat, more: Audit)
    requires Inv(s) && w < |s.works| && Grants(more) && more.work == w
    ensures ApprovalsOk(s.audits + [more], s.works[w := Moved(s.works[w], Committing)])
  {
    RecordingKeepsEvidence(s.audits, more, s.works, s.jobs);
    assert IsGrantOf(s.audits + [more], |s.audits|, w);
  }

  lemma GrantingKeepsRows(s: DB, w: nat)
    requires Inv(s) && w < |s.works| && s.works[w].status == AwaitingApproval && WorkerFine(s, s.works[w])
    ensures WorksOk(s.works[w := Moved(s.works[w], Committing)], |s.workers|)
    ensures LeasesOk(s.leases, s.works[w := Moved(s.works[w], Committing)])
    ensures WorksFenced(s.workers, s.works[w := Moved(s.works[w], Committing)])
  {
  }

  /** The delivery job that an approval queues. */
  function JobsAfter(jobs: map<nat, Job>, w: nat, audit: nat, needed: bool): map<nat, Job> {
    if needed then jobs[w := Job(Pending, Some(audit), 0)] else jobs
  }

  lemma GrantingKeepsJobs(s: DB, w: nat, more: Audit)
    requires Inv(s) && w < |s.works| && s.works[w].status == AwaitingApproval && Grants(more) && more.work == w
    ensures JobsOk(JobsAfter(s.jobs, w, |s.audits|, more.queued), s.works[w := Moved(s.works[w], Committing)], s.audits + [more])
  {
    UnapprovedIsFresh(s, w);
    RecordingKeepsEvidence(s.audits, more, s.works, s.jobs);
  }

  lemma GrantingKeepsAttempts(s: DB, w: nat, more: Audit, needed: bool)
    requires Inv(s) && w < |s.works| && s.works[w].status == AwaitingApproval
    ensures AttemptsOk(s.attempts, JobsAfter(s.jobs, w, |s.audits|, needed), s.audits + [more])
  {
    UnapprovedIsFresh(s, w);
    RecordingKeepsWrites(s.audits, more, s.works, s.jobs, s.attempts, s.log);
  }

  lemma GrantingKeepsFences(workers: seq<Worker>, works: seq<Work>, jobs: map<nat, Job>, w: nat, work: Work, audit: nat, needed: bool)
    requires JobsFenced(workers, works, jobs) && w < |works| && work.owner == works[w].owner
    requires work.owner.None? || !IsQuarantined(workers, work.owner.value)
    ensures JobsFenced(workers, works[w := work], JobsAfter(jobs, w, audit, needed))
  {
  }

  lemma GrantingKeepsBundles(s: DB, w: nat, more: Audit)
    requires Inv(s) && w < |s.works| && s.works[w].status == AwaitingApproval
    requires Grants(more) && more.work == w && BundleOk(more, s.bundles, JobsAfter(s.jobs, w, |s.audits|, more.queued))
    ensures BundlesOk(s.audits + [more], s.bundles, JobsAfter(s.jobs, w, |s.audits|, more.queued))
    ensures WritesOk(s.log, s.audits + [more], s.works[w := Moved(s.works[w], Committing)])
  {
    UnapprovedIsFresh(s, w);
  }

  lemma PublishingKeepsApprovals(s: DB, w: nat)
    requires Inv(s) && w < |s.works| && s.works[w].status == Committing
    ensures GrantsOk(s.audits, s.works[w := Moved(Moved(s.works[w], PrCreated), Completed)])
    ensures ApprovalsOk(s.audits, s.works[w := Moved(Moved(s.works[w], PrCreated), Completed)])
  {
  }

  lemma PublishingKeepsRows(s: DB, w: nat)
    requires Inv(s) && w < |s.works| && s.works[w].status == Committing
    ensures WorksOk(s.works[w := Moved(Moved(s.works[w], PrCreated), Completed)], |s.workers|)
    ensures LeasesOk(s.leases, s.works[w := Moved(Moved(s.works[w], PrCreated), Completed)])
    ensures WorksFenced(s.workers, s.works[w := Moved(Moved(s.works[w], PrCreated), Completed)])
    ensures WritesOk(s.log, s.audits, s.works[w := Moved(Moved(s.works[w], PrCreated), Completed)])
  {
  }

  function Published(s: DB, w: nat): DB
    requires w < |s.works| && w in s.jobs
  {
    s.(works := s.works[w := Moved(Moved(s.works[w], PrCreated), Completed)],
       jobs := s.jobs[w := s.jobs[w].(state := JobCompleted)], attempts := s.attempts - {w})
  }

  lemma FinalizeIsPublishing(s: DB, w: nat)
    requires w in s.attempts && s.attempts[w].stage == Stage.Published && Lockable(s, w, {Running})
    ensures AuthorityOf(s, w) != Some(s.attempts[w].authority) ==> Finalize(s, w) == Some(SetStage(s, w, Failing))
    ensures AuthorityOf(s, w) == Some(s.attempts[w].authority) ==> Finalize(s, w) == Some(Log(Published(s, w), w, Finished))
  {
  }

  /** Finishing the delivery and its work together. */
  lemma PublishingKeeps(s: DB, w: nat)
    requires Inv(s) && w in s.jobs && s.works[w].status == Committing
    ensures Inv(Published(s, w))
  {
    PublishingKeepsApprovals(s, w);
    PublishingKeepsRows(s, w);
    JobKeepsBundles(s.audits, s.bundles, s.jobs, w, s.jobs[w].(state := JobCompleted));
    assert JobsOk(s.jobs[w := s.jobs[w].(state := JobCompleted)], s.works[w := Moved(Moved(s.works[w], PrCreated), Completed)], s.audits);
    assert AttemptsOk(s.attempts - {w}, s.jobs[w := s.jobs[w].(state := JobCompleted)], s.audits);
    assert JobsFenced(s.workers, s.works[w := Moved(Moved(s.works[w], PrCreated), Completed)], s.jobs[w := s.jobs[w].(state := JobCompleted)]);
  }

  function JobSettled(s: DB, w: nat, state: JobState): DB
    requires w in s.jobs
  {
    s.(jobs := s.jobs[w := s.jobs[w].(state := state)])
  }

  lemma FailDeliveryIsFailing(s: DB, w: nat)
    requires w < |s.works| && w in s.jobs && s.works[w].status == Committing
    ensures FailDelivery(s, w) == Some(Log(JobSettled(SetWork(s, w, Moved(s.works[w], Failed)), w, JobFailed), w, DeliveryFailed))
  {
  }

  /** Failing the delivery and its work together. */
  lemma FailingKeeps(s: DB, w: nat)
    requires Inv(s) && w in s.jobs && s.works[w].status == Committing && w !in s.attempts
    ensures FailDelivery(s, w).Some? && Inv(FailDelivery(s, w).value)
  {
    var failed := SetWork(s, w, Moved(s.works[w], Failed));
    FailDeliveryIsFailing(s, w);
    MovingKeeps(s, w, Failed);
    JobKeeps(failed, w, failed.jobs[w].(state := JobFailed));
    RecordingKeeps(JobSettled(failed, w, JobFailed), Delivery(w, DeliveryFailed));
  }

  lemma WritingKeepsLog(log: seq<Event>, workers: seq<Worker>, event: Event)
    requires LogOk(log, workers) && event.Write? && !IsQuarantined(workers, event.worker)
    ensures LogOk(log + [event], workers)
  {
  }

  lemma WritingKeepsWrites(log: seq<Event>, audits: seq<Audit>, works: seq<Work>, event: Event)
    requires WritesOk(log, audits, works) && event.Write? && WriteOk(event, audits, works)
    ensures WritesOk(log + [event], audits, works)
  {
  }

  /** An external write that starts under the delivery locks with the approved authority. */
  lemma WritingKeeps(s: DB, event: Event)
    requires Inv(s) && event.Write? && WriteOk(event, s.audits, s.works) && event.worker < |s.workers| && !s.workers[event.worker].quarantined
    ensures Inv(s.(log := s.log + [event]))
  {
    WritingKeepsLog(s.log, s.workers, event);
    WritingKeepsWrites(s.log, s.audits, s.works, event);
  }

  /** A committing work with a central delivery has the authority of its approval. */
  lemma AuthorityIsPinned(s: DB, w: nat)
    requires Inv(s) && w in s.jobs && s.works[w].status == Committing
    ensures AuthorityOf(s, w).Some? && AuthorityOf(s, w) == Pinned(s.audits, s.jobs[w].approval)
  {
  }

  /* ---------- quarantine keeps the invariant ---------- */

  /** The works after quarantine of `k`. */
  ghost predicate Ended(k: nat, works: seq<Work>, after: seq<Work>) {
    |after| == |works| && forall w :: 0 <= w < |works| ==> after[w] == EndOf(k, works[w])
  }

  lemma EndingKeepsApprovals(k: nat, works: seq<Work>, after: seq<Work>, audits: seq<Audit>)
    requires GrantsOk(audits, works) && ApprovalsOk(audits, works) && Ended(k, works, after)
    ensures GrantsOk(audits, after) && ApprovalsOk(audits, after)
  {
  }

  lemma EndingKeepsRows(k: nat, works: seq<Work>, after: seq<Work>, workers: nat, log: seq<Event>, audits: seq<Audit>)
    requires WorksOk(works, workers) && WritesOk(log, audits, works) && Ended(k, works, after)
    ensures WorksOk(after, workers) && WritesOk(log, audits, after)
  {
  }

  lemma EndingKeepsLeases(k: nat, now: int, works: seq<Work>, after: seq<Work>, leases: seq<Lease>, left: seq<Lease>)
    requires LeasesOk(leases, works) && Ended(k, works, after)
    requires |left| == |leases| && forall l :: 0 <= l < |leases| ==> left[l] == WithholdOf(k, now, leases[l])
    ensures LeasesOk(left, after)
  {
  }

  /** The jobs after quarantine of `k`. */
  ghost predicate Fenced(k: nat, works: seq<Work>, jobs: map<nat, Job>, after: map<nat, Job>) {
    after.Keys == jobs.Keys && forall w :: w in jobs ==> after[w] == FenceOf(k, works, w, jobs[w])
  }

  lemma FencingKeepsJobs(k: nat, works: seq<Work>, ended: seq<Work>, jobs: map<nat, Job>, after: map<nat, Job>, audits: seq<Audit>)
    requires JobsOk(jobs, works, audits) && Ended(k, works, ended) && Fenced(k, works, jobs, after)
    ensures JobsOk(after, ended, audits)
  {
  }

  lemma FencingKeepsDeliveries(k: nat, works: seq<Work>, jobs: map<nat, Job>, after: map<nat, Job>, audits: seq<Audit>,
                               bundles: map<nat, string>, attempts: map<nat, Attempt>)
    requires BundlesOk(audits, bundles, jobs) && AttemptsOk(attempts, jobs, audits) && Fenced(k, works, jobs, after)
    ensures BundlesOk(audits, bundles, after) && AttemptsOk(attempts, after, audits)
  {
  }

  lemma QuarantineEffect(s: DB, k: nat, now: int)
    requires Quarantine(s, k, now).Some? && !s.workers[k].quarantined
    ensures Ended(k, s.works, Quarantine(s, k, now).value.works)
    ensures Fenced(k, s.works, s.jobs, Quarantine(s, k, now).value.jobs)
    ensures CredentialsOk(s.credentials, |s.workers|) ==>
              CredentialsOk(Quarantine(s, k, now).value.credentials, |Quarantine(s, k, now).value.workers|)
  {
  }

  lemma QuarantineKeepsLog(s: DB, k: nat, now: int)
    requires Quarantine(s, k, now).Some? && !s.workers[k].quarantined
    requires WritesOk(s.log, s.audits, Quarantine(s, k, now).value.works)
    ensures WritesOk(Quarantine(s, k, now).value.log, s.audits, Quarantine(s, k, now).value.works)
  {
  }

  lemma QuarantineFences(s: DB, k: nat, now: int)
    requires Inv(s) && Quarantine(s, k, now).Some? && !s.workers[k].quarantined
    ensures WorkersOk(Quarantine(s, k, now).value.workers)
    ensures CredentialsFenced(Quarantine(s, k, now).value.workers, Quarantine(s, k, now).value.credentials)
    ensures LeasesFenced(Quarantine(s, k, now).value.workers, Quarantine(s, k, now).value.leases)
    ensures LogOk(Quarantine(s, k, now).value.log, Quarantine(s, k, now).value.workers)
  {
  }

  lemma QuarantineFencesWorks(s: DB, k: nat, now: int)
    requires Inv(s) && Quarantine(s, k, now).Some? && !s.workers[k].quarantined
    ensures WorksFenced(Quarantine(s, k, now).value.workers, Quarantine(s, k, now).value.works)
    ensures JobsFenced(Quarantine(s, k, now).value.workers, Quarantine(s, k, now).value.works, Quarantine(s, k, now).value.jobs)
  {
  }

  /* ---------- every transaction keeps the invariant ---------- */

  lemma RegisterKeeps(s: DB, cpu: int, memory: int, disk: int, mock: bool)
    requires Inv(s) && Register(s, cpu, memory, disk, mock).Some?
    ensures Inv(Register(s, cpu, memory, disk, mock).value)
  {
  }

  lemma UpdateWorkerKeeps(s: DB, k: nat, state: WorkerState, mock: bool)
    requires Inv(s) && UpdateWorker(s, k, state, mock).Some?
    ensures Inv(UpdateWorker(s, k, state, mock).value)
  {
  }

  lemma MintKeeps(s: DB, k: nat, expires: int)
    requires Inv(s) && Mint(s, k, expires).Some?
    ensures Inv(Mint(s, k, expires).value)
  {
  }

  lemma RotateKeeps(s: DB, c: nat, now: int, lifetime: int, overlap: int)
    requires Inv(s) && Rotate(s, c, now, lifetime, overlap).Some?
    ensures Inv(Rotate(s, c, now, lifetime, overlap).value)
  {
  }

  lemma RevokeKeeps(s: DB, c: nat)
    requires Inv(s) && Revoke(s, c).Some?
    ensures Inv(Revoke(s, c).value)
  {
  }

  lemma AddingKeepsApprovals(audits: seq<Audit>, works: seq<Work>, jobs: map<nat, Job>, work: Work)
    requires GrantsOk(audits, works) && ApprovalsOk(audits, works) && JobsOk(jobs, works, audits) && work.status == Status.Queued
    ensures GrantsOk(audits, works + [work]) && ApprovalsOk(audits, works + [work]) && JobsOk(jobs, works + [work], audits)
  {
  }

  lemma AddingKeepsRows(works: seq<Work>, leases: seq<Lease>, log: seq<Event>, audits: seq<Audit>, workers: nat, work: Work)
    requires WorksOk(works, workers) && LeasesOk(leases, works) && WritesOk(log, audits, works) && WorkRow(work, workers)
    ensures WorksOk(works + [work], workers) && LeasesOk(leases, works + [work]) && WritesOk(log, audits, works + [work])
  {
  }

  lemma AddingKeepsFences(workers: seq<Worker>, works: seq<Work>, jobs: map<nat, Job>, work: Work)
    requires WorksFenced(workers, works) && JobsFenced(workers, works, jobs) && work.owner.None?
    ensures WorksFenced(workers, works + [work]) && JobsFenced(workers, works + [work], jobs)
  {
  }

  lemma CreateWorkKeeps(s: DB, scope: Scope, installation: bool)
    requires Inv(s) && CreateWork(s, scope, installation).Some?
    ensures Inv(CreateWork(s, scope, installation).value)
  {
    var work := Work(Status.Queued, 1, None, scope, installation);
    AddingKeepsApprovals(s.audits, s.works, s.jobs, work);
    AddingKeepsRows(s.works, s.leases, s.log, s.audits, |s.workers|, work);
    AddingKeepsFences(s.workers, s.works, s.jobs, work);
  }

  lemma ClaimKeeps(s: DB, k: nat, w: nat, amount: Usage, expires: int)
    requires Inv(s) && Claim(s, k, w, amount, expires).Some?
    ensures Inv(Claim(s, k, w, amount, expires).value)
  {
    ClaimingKeepsRows(s, k, w, Lease(w, k, Active, expires, amount));
    ClaimingKeepsApprovals(s, k, w);
    ClaimingKeepsFences(s, k, w);
  }

  lemma WorkerTransitionKeeps(s: DB, l: nat, now: int, seconds: int, target: Status, expected: int)
    requires Inv(s) && WorkerTransition(s, l, now, seconds, target, expected).Some?
    ensures Inv(WorkerTransition(s, l, now, seconds, target, expected).value)
  {
    var w := s.leases[l].work;
    RenewingKeeps(s, l, now + seconds);
    WorkerIsNarrower(s.works[w].status, target);
    MovingKeeps(Renew(s, l, now + seconds), w, target);
  }

  lemma ReleaseKeeps(s: DB, l: nat, now: int, seconds: int)
    requires Inv(s) && Release(s, l, now, seconds).Some?
    ensures Inv(Release(s, l, now, seconds).value)
  {
    RenewingKeeps(s, l, now + seconds);
    ReturningKeeps(Renew(s, l, now + seconds), l);
  }

  lemma ReconcileKeeps(s: DB, k: nat, l: nat, w: nat, expected: int)
    requires Inv(s) && Reconcile(s, k, l, w, expected).Some?
    ensures Inv(Reconcile(s, k, l, w, expected).value)
  {
    var settled := if s.leases[l].state == Active then ReturnLease(s, l) else s;
    if s.leases[l].state == Active {
      ReturningKeeps(s, l);
    }
    RecordingKeeps(settled, Reconciled(w, l));
  }

  lemma CancelQueuedKeeps(s: DB, w: nat, actor: Actor, expected: int)
    requires Inv(s) && CancelQueued(s, w, actor, expected).Some?
    ensures Inv(CancelQueued(s, w, actor, expected).value)
  {
    MovingKeeps(s, w, Cancelled);
    RecordingKeeps(SetWork(s, w, Moved(s.works[w], Cancelled)), CancelledInQueue(w));
  }

  lemma GiveFeedbackKeeps(s: DB, w: nat, actor: Actor)
    requires Inv(s) && GiveFeedback(s, w, actor).Some?
    ensures Inv(GiveFeedback(s, w, actor).value)
  {
    if ResumedByFeedback(s.works[w].status) {
      MovingKeeps(s, w, Implementing);
      RecordingKeeps(SetWork(s, w, Moved(s.works[w], Implementing)), FeedbackGiven(w));
    } else {
      RecordingKeeps(s, FeedbackGiven(w));
      assert s.works[w := s.works[w]] == s.works;
    }
  }

  lemma UploadKeeps(s: DB, l: nat, now: int, seconds: int, digest: string)
    requires Inv(s) && Upload(s, l, now, seconds, digest).Some?
    ensures Inv(Upload(s, l, now, seconds, digest).value)
  {
  }

  lemma DecideKeeps(s: DB, w: nat, actor: Actor, transport: Transport, kind: Kind, decision: Decision,
                    expected: Option<int>, minutes: int, intact: bool)
    requires Inv(s) && Decide(s, w, actor, transport, kind, decision, expected, minutes, intact).Some?
    ensures Inv(Decide(s, w, actor, transport, kind, decision, expected, minutes, intact).value)
  {
    var work := s.works[w];
    var target := DecisionTarget(work, kind, decision, expected, minutes).value;
    var t := Decide(s, w, actor, transport, kind, decision, expected, minutes, intact).value;
    var audit := t.audits[|s.audits|];
    if kind == PullRequest && decision == Approve {
      UnapprovedIsFresh(s, w);
      GrantingKeepsGrants(s, w, audit);
      GrantingKeepsApprovals(s, w, audit);
      GrantingKeepsRows(s, w);
      GrantingKeepsJobs(s, w, audit);
      GrantingKeepsAttempts(s, w, audit, audit.queued);
      GrantingKeepsFences(s.workers, s.works, s.jobs, w, Moved(work, Committing), |s.audits|, audit.queued);
      GrantingKeepsBundles(s, w, audit);
    } else if target.Some? {
      UnapprovedIsFresh(s, w);
      MovingKeeps(s, w, target.value);
      RecordingKeeps(SetWork(s, w, Moved(work, target.value)), audit);
    } else {
      RecordingKeeps(s, audit);
      assert s.works[w := work] == s.works;
    }
  }

  lemma StartDeliveryKeeps(s: DB, w: nat)
    requires Inv(s) && StartDelivery(s, w).Some?
    ensures Inv(StartDelivery(s, w).value)
  {
    var running := s.(jobs := s.jobs[w := s.jobs[w].(state := Running, attempts := s.jobs[w].attempts + 1)]);
    JobKeeps(s, w, running.jobs[w]);
    AuthorityIsPinned(running, w);
    RecordingKeeps(running, Delivery(w, Started));
    AttemptKeeps(Log(running, w, Started), w, Attempt(AuthorityOf(running, w).value, Begun));
  }

  lemma GuardedWriteKeeps(s: DB, w: nat, kind: WriteKind, succeeds: bool)
    requires Inv(s) && GuardedWrite(s, w, kind, succeeds).Some?
    ensures Inv(GuardedWrite(s, w, kind, succeeds).value)
  {
    if !Lockable(s, w, {Running}) {
      StagingKeeps(s, w, Stopping);
    } else {
      AuthorityIsPinned(s, w);
      var event := Write(kind, w, s.works[w].owner.value, AuthorityOf(s, w).value.audit, s.works[w].status, s.works[w].version,
                         s.jobs[w].state, s.bundles[w]);
      WritingKeeps(s, event);
      StagingKeeps(s.(log := s.log + [event]), w, if succeeds then AfterWrite(kind) else Failing);
    }
  }

  lemma FindPullRequestKeeps(s: DB, w: nat)
    requires Inv(s) && FindPullRequest(s, w).Some?
    ensures Inv(FindPullRequest(s, w).value)
  {
  }

  lemma DeliveryErrorKeeps(s: DB, w: nat)
    requires Inv(s) && DeliveryError(s, w).Some?
    ensures Inv(DeliveryError(s, w).value)
  {
  }

  lemma FinalizeKeeps(s: DB, w: nat)
    requires Inv(s) && Finalize(s, w).Some?
    ensures Inv(Finalize(s, w).value)
  {
    if !Lockable(s, w, {Running}) {
      StagingKeeps(s, w, Stopping);
    } else {
      FinalizeIsPublishing(s, w);
      StagingKeeps(s, w, Failing);
      PublishingKeeps(s, w);
      RecordingKeeps(Published(s, w), Delivery(w, Finished));
    }
  }

  lemma SettleKeeps(s: DB, w: nat)
    requires Inv(s) && Settle(s, w).Some?
    ensures Inv(Settle(s, w).value)
  {
    var dropped := s.(attempts := s.attempts - {w});
    DropAttemptsKeeps(s, {w});
    if s.attempts[w].stage == Failing && Lockable(s, w, {Running}) {
      FailingKeeps(dropped, w);
    } else {
      RecordingKeeps(dropped, Delivery(w, Stopped));
    }
  }

  lemma DropAttemptsKeeps(s: DB, ended: set<nat>)
    requires Inv(s) && DropAttempts(s, ended).Some?
    ensures Inv(DropAttempts(s, ended).value)
  {
  }

  lemma RecoverKeeps(s: DB, w: nat)
    requires Inv(s) && Recover(s, w).Some?
    ensures Inv(Recover(s, w).value)
  {
    if s.jobs[w].state == Running {
      JobKeeps(s, w, s.jobs[w].(state := Retry));
      RecordingKeeps(s.(jobs := s.jobs[w := s.jobs[w].(state := Retry)]), Delivery(w, Interrupted));
    }
  }

  lemma QuarantineKeeps(s: DB, k: nat, now: int)
    requires Inv(s) && Quarantine(s, k, now).Some?
    ensures Inv(Quarantine(s, k, now).value)
  {
    if !s.workers[k].quarantined {
      var t := Quarantine(s, k, now).value;
      QuarantineEffect(s, k, now);
      EndingKeepsApprovals(k, s.works, t.works, s.audits);
      EndingKeepsRows(k, s.works, t.works, |s.workers|, s.log, s.audits);
      EndingKeepsLeases(k, now, s.works, t.works, s.leases, t.leases);
      FencingKeepsJobs(k, s.works, t.works, s.jobs, t.jobs, s.audits);
      FencingKeepsDeliveries(k, s.works, s.jobs, t.jobs, s.audits, s.bundles, s.attempts);
      QuarantineKeepsLog(s, k, now);
      QuarantineFences(s, k, now);
      QuarantineFencesWorks(s, k, now);
    }
  }

}
