/**
 The control plane's database and every transaction on it that moves work, leases, approvals,
 deliveries or workers.

 Rows are identified by their position in their table. A transaction is a function from a state to
 the committed state, or to `None` when it is refused and rolled back. The clock, the choices of the
 database and the answers of outside systems are arguments.

 Two parts of the state are not tables: `attempts`, the deliveries this API process is running, which
 a crash loses; and `log`, the history of external delivery writes and of quarantines, which only
 records what happened.
 */
module ControlPlane {
  import opened StateMachine
  import opened Wrappers

  /* ---------- rows ---------- */

  /** CPU, memory and disk, and the number of runs they serve. */
  datatype Usage = Usage(cpu: int, memory: int, disk: int, runs: int)

  datatype WorkerState = Online | Draining | Offline

  datatype Worker = Worker(state: WorkerState, quarantined: bool, credentialRequired: bool, mock: bool,
                           cpuTotal: int, memoryTotal: int,
                           cpu: int, memory: int, disk: int, activeRuns: int)

  datatype Scope = Scope(organization: string, repository: string, correlation: string)

  datatype Work = Work(status: Status, version: int, owner: Option<nat>, scope: Scope, installation: bool)

  datatype LeaseState = Active | Returned | Withheld

  datatype Lease = Lease(work: nat, worker: nat, state: LeaseState, expires: int, amount: Usage)

  datatype Credential = Credential(worker: nat, expires: int, revoked: bool)

  datatype JobState = Pending | Retry | Running | JobCompleted | JobFailed | JobQuarantined

  datatype Job = Job(state: JobState, approval: Option<nat>, attempts: nat)

  datatype Role = Viewer | Operator | Approver | Administrator

  datatype Transport = Web | Slack

  datatype Kind = PullRequest | Budget | Console

  datatype Decision = Approve | Reject

  datatype DeliveryAction = Started | Interrupted | Finished | DeliveryFailed | Stopped

  datatype Audit =
    | Approval(work: nat, scope: Scope, transport: Transport, effective: Role, kind: Kind, decision: Decision,
               before: Status, after: Status, version: int, queued: bool, bundle: Option<string>)
    | Reconciled(work: nat, lease: nat)
    | Delivery(work: nat, action: DeliveryAction)
    | FeedbackGiven(work: nat)
    | CancelledInQueue(work: nat)

  datatype Authority = Authority(audit: nat, digest: string, version: int)

  datatype Stage = Begun | Authorized | Pushed | Published | Stopping | Failing

  datatype Attempt = Attempt(authority: Authority, stage: Stage)

  datatype WriteKind = Token | Push | PullRequestCreation

  /** An external write with the rows it started under, or a committed quarantine. */
  datatype Event =
    | Write(kind: WriteKind, work: nat, worker: nat, audit: nat, status: Status, version: int, job: JobState, digest: string)
    | Quarantined(worker: nat)

  datatype DB = DB(workers: seq<Worker>, works: seq<Work>, leases: seq<Lease>, credentials: seq<Credential>,
                   jobs: map<nat, Job>, bundles: map<nat, string>, audits: seq<Audit>,
                   attempts: map<nat, Attempt>, log: seq<Event>)

  const EMPTY := DB([], [], [], [], map[], map[], [], map[], [])

  /** A signed-in person as the authorization of one request found them. */
  datatype Actor = Actor(organization: string, effective: Role)

  function RoleRank(role: Role): nat {
    match role
    case Viewer => 0
    case Operator => 1
    case Approver => 2
    case Administrator => 3
  }

  /** authorized_work_with_decision on an existing work */
  predicate Authorizes(actor: Actor, work: Work, required: Role) {
    actor.organization == work.scope.organization && RoleRank(actor.effective) >= RoleRank(required)
  }

  /* ---------- transitions ---------- */

  /** transition_work_item without a worker's authority */
  function MoveWork(work: Work, target: Status, expected: int): Option<Work> {
    if work.version != expected || target !in Allowed(work.status) then None
    else Some(work.(status := target, version := work.version + 1))
  }

  function SetWork(s: DB, w: nat, work: Work): DB
    requires w < |s.works|
  {
    s.(works := s.works[w := work])
  }

  predicate IsPrDecision(audit: Audit, w: nat) {
    audit.Approval? && audit.work == w && audit.kind == PullRequest
  }

  /** The latest pull-request decision recorded for a work. */
  function LatestPr(audits: seq<Audit>, w: nat): (r: Option<nat>)
    ensures r.Some? ==> r.value < |audits| && IsPrDecision(audits[r.value], w)
  {
    if audits == [] then None
    else if IsPrDecision(audits[|audits| - 1], w) then Some(|audits| - 1)
    else LatestPr(audits[..|audits| - 1], w)
  }

  /** authorize_worker_transition */
  predicate WorkerMay(s: DB, w: nat, target: Status, worker: nat)
    requires w < |s.works|
  {
    var work := s.works[w];
    && work.owner == Some(worker) && target in WorkerAllowed(work.status)
    && (target == PrCreated || target == Completed ==>
          && worker < |s.workers| && s.workers[worker].mock && w !in s.jobs
          && var latest := LatestPr(s.audits, w);
             latest.Some? && MockApproval(s.audits[latest.value], work))
  }

  /** The recorded approval lets a mock run report its own progress. */
  predicate MockApproval(audit: Audit, work: Work) {
    && audit.Approval? && audit.scope == work.scope
    && (audit.effective == Approver || audit.effective == Administrator)
    && audit.decision == Approve && !audit.queued && audit.bundle.None?
    && audit.before == AwaitingApproval && audit.after == Committing
    && audit.version == work.version - (if work.status == PrCreated then 1 else 0)
  }

  /* ---------- workers and credentials ---------- */

  predicate Amount(amount: Usage) {
    1 <= amount.cpu <= 64 && amount.memory >= 1024 && amount.disk >= 5 && amount.runs == 1
  }

  /** First registration of a worker. */
  function Register(s: DB, cpu: int, memory: int, disk: int, mock: bool): Option<DB> {
    if cpu < 1 || memory < 1024 || disk < 1 then None
    else Some(s.(workers := s.workers + [Worker(Online, false, false, mock, cpu, memory, cpu, memory, disk, 0)]))
  }

  /** What a later registration or a heartbeat changes besides the availability columns. */
  function UpdateWorker(s: DB, k: nat, state: WorkerState, mock: bool): Option<DB> {
    if k >= |s.workers| || s.workers[k].quarantined then None
    else Some(s.(workers := s.workers[k := s.workers[k].(state := state, mock := mock)]))
  }

  /** authenticate_worker */
  predicate Authenticates(s: DB, c: nat, now: int) {
    && c < |s.credentials| && s.credentials[c].worker < |s.workers|
    && !s.workers[s.credentials[c].worker].quarantined && !s.credentials[c].revoked && s.credentials[c].expires > now
  }

  /** _mint */
  function Mint(s: DB, k: nat, expires: int): Option<DB> {
    if k >= |s.workers| || s.workers[k].quarantined then None
    else Some(s.(workers := s.workers[k := s.workers[k].(credentialRequired := true)],
                 credentials := s.credentials + [Credential(k, expires, false)]))
  }

  /** rotate_credential */
  function Rotate(s: DB, c: nat, now: int, lifetime: int, overlap: int): Option<DB> {
    if c >= |s.credentials| || s.credentials[c].worker >= |s.workers|
       || s.credentials[c].revoked || s.credentials[c].expires <= now then None
    else
      var minted := Mint(s, s.credentials[c].worker, now + lifetime);
      if minted.None? then None
      else
        var left := if s.credentials[c].expires < now + overlap then s.credentials[c].expires else now + overlap;
        Some(minted.value.(credentials := minted.value.credentials[c := s.credentials[c].(expires := left)]))
  }

  /** revoke_credential */
  function Revoke(s: DB, c: nat): Option<DB> {
    if c >= |s.credentials| then None
    else Some(s.(credentials := s.credentials[c := s.credentials[c].(revoked := true)]))
  }

  /* ---------- work and leases ---------- */

  function CreateWork(s: DB, scope: Scope, installation: bool): Option<DB> {
    Some(s.(works := s.works + [Work(Queued, 1, None, scope, installation)]))
  }

  /** claim_next_work; `w` is the queued work the database hands out. */
  function Claim(s: DB, k: nat, w: nat, amount: Usage, expires: int): Option<DB> {
    if k >= |s.workers| || w >= |s.works| || !Amount(amount) then None
    else
      var worker, work := s.workers[k], s.works[w];
      if worker.state != Online || worker.quarantined
         || worker.cpu < amount.cpu || worker.memory < amount.memory || worker.disk < amount.disk
         || work.status != Queued then None
      else
        var moved := MoveWork(work, Provisioning, work.version);
        if moved.None? then None
        else Some(s.(
          works := s.works[w := moved.value.(owner := Some(k))],
          leases := s.leases + [Lease(w, k, Active, expires, amount)],
          workers := s.workers[k := worker.(cpu := worker.cpu - amount.cpu, memory := worker.memory - amount.memory,
                                            disk := worker.disk - amount.disk, activeRuns := worker.activeRuns + 1)]))
  }

  /** validate_lease accepts the token of lease `l` for its work. */
  predicate LeaseValid(s: DB, l: nat, now: int) {
    && l < |s.leases| && s.leases[l].state == Active && s.leases[l].worker < |s.workers| && s.leases[l].work < |s.works|
    && !s.workers[s.leases[l].worker].quarantined && s.leases[l].expires >= now
  }

  function Renew(s: DB, l: nat, expires: int): DB
    requires l < |s.leases|
  {
    s.(leases := s.leases[l := s.leases[l].(expires := expires)])
  }

  /** worker_transition */
  function WorkerTransition(s: DB, l: nat, now: int, seconds: int, target: Status, expected: int): Option<DB> {
    if !LeaseValid(s, l, now) then None
    else
      var w := s.leases[l].work;
      var moved := MoveWork(s.works[w], target, expected);
      if moved.None? || !WorkerMay(s, w, target, s.leases[l].worker) then None
      else Some(SetWork(Renew(s, l, now + seconds), w, moved.value))
  }

  /** return_lease_resources */
  function GiveBack(worker: Worker, amount: Usage): Worker {
    var cpu, memory := worker.cpu + amount.cpu, worker.memory + amount.memory;
    worker.(cpu := if worker.cpuTotal < cpu then worker.cpuTotal else cpu,
            memory := if worker.memoryTotal < memory then worker.memoryTotal else memory,
            disk := worker.disk + amount.disk,
            activeRuns := if worker.activeRuns - 1 < 0 then 0 else worker.activeRuns - 1)
  }

  function ReturnLease(s: DB, l: nat): DB
    requires l < |s.leases| && s.leases[l].worker < |s.workers|
  {
    var lease := s.leases[l];
    s.(workers := s.workers[lease.worker := GiveBack(s.workers[lease.worker], lease.amount)],
       leases := s.leases[l := lease.(state := Returned)])
  }

  /** release_run */
  function Release(s: DB, l: nat, now: int, seconds: int): Option<DB> {
    if !LeaseValid(s, l, now) || !Terminal(s.works[s.leases[l].work].status) then None
    else Some(ReturnLease(Renew(s, l, now + seconds), l))
  }

  predicate ReconciledBefore(audits: seq<Audit>, w: nat, l: nat) {
    exists i :: 0 <= i < |audits| && audits[i] == Reconciled(w, l)
  }

  predicate DeliverySettled(s: DB, w: nat) {
    w in s.jobs ==> s.jobs[w].state == JobCompleted || s.jobs[w].state == JobFailed
  }

  /** reconcile_terminal_lease, called by the authenticated worker `k` */
  function Reconcile(s: DB, k: nat, l: nat, w: nat, expected: int): Option<DB> {
    if k >= |s.workers| || s.workers[k].quarantined || l >= |s.leases| || s.leases[l].worker != k
       || s.leases[l].work >= |s.works| || s.works[s.leases[l].work].owner != Some(k)
       || s.leases[l].work != w || s.works[w].version != expected || !Terminal(s.works[w].status)
       || s.leases[l].state == Withheld || !DeliverySettled(s, w) then None
    else if ReconciledBefore(s.audits, w, l) then
      if s.leases[l].state == Returned then Some(s) else None
    else
      var settled := if s.leases[l].state == Active then ReturnLease(s, l) else s;
      Some(settled.(audits := settled.audits + [Reconciled(w, l)]))
  }

  /** cancel_queued_work */
  function CancelQueued(s: DB, w: nat, actor: Actor, expected: int): Option<DB> {
    if w >= |s.works| || !Authorizes(actor, s.works[w], Administrator)
       || s.works[w].status != Queued || s.works[w].owner.Some?
       || (exists l :: 0 <= l < |s.leases| && s.leases[l].work == w) then None
    else
      var moved := MoveWork(s.works[w], Cancelled, expected);
      if moved.None? then None
      else Some(SetWork(s, w, moved.value).(audits := s.audits + [CancelledInQueue(w)]))
  }

  /** ensure_worker_not_quarantined */
  predicate WorkerFine(s: DB, work: Work) {
    work.owner.None? || work.owner.value >= |s.workers| || !s.workers[work.owner.value].quarantined
  }

  /** add_feedback, from the web or from Slack */
  function GiveFeedback(s: DB, w: nat, actor: Actor): Option<DB> {
    if w >= |s.works| || !Authorizes(actor, s.works[w], Operator) || !WorkerFine(s, s.works[w])
       || !FeedbackAllowed(s.works[w].status) then None
    else
      var work := s.works[w];
      var moved := if ResumedByFeedback(work.status) then MoveWork(work, Implementing, work.version) else Some(work);
      if moved.None? then None
      else Some(SetWork(s, w, moved.value).(audits := s.audits + [FeedbackGiven(w)]))
  }

  /** A SHA-256 in lower-case hexadecimal. */
  predicate IsDigest(s: string) {
    |s| == 64 && forall i :: 0 <= i < 64 ==> '0' <= s[i] <= '9' || 'a' <= s[i] <= 'f'
  }

  /** upload_delivery_bundle; `digest` is the digest of the uploaded bytes. */
  function Upload(s: DB, l: nat, now: int, seconds: int, digest: string): Option<DB> {
    if !IsDigest(digest) || !LeaseValid(s, l, now) then None
    else
      var w := s.leases[l].work;
      if s.works[w].status != Verifying && s.works[w].status != AwaitingApproval then None
      else Some(Renew(s, l, now + seconds).(bundles := s.bundles[w := digest]))
  }

  /* ---------- approval ---------- */

  /** validate_delivery_ready: `None` refuses, `Some(b)` says whether central delivery is needed. */
  function DeliveryNeeded(s: DB, w: nat, intact: bool): Option<bool>
    requires w < |s.works|
  {
    var work := s.works[w];
    if work.owner.Some? && work.owner.value < |s.workers| && s.workers[work.owner.value].mock then Some(false)
    else if w !in s.bundles || !work.installation || !intact then None
    else Some(true)
  }

  /** queue_delivery */
  function QueueDelivery(jobs: map<nat, Job>, w: nat, audit: nat): map<nat, Job> {
    if w !in jobs then jobs[w := Job(Pending, Some(audit), 0)]
    else if jobs[w].state != JobCompleted then jobs[w := jobs[w].(state := Retry, approval := Some(audit))]
    else jobs
  }

  /** Where a decision moves the work; `None` refuses it, `Some(None)` leaves the status alone. */
  function DecisionTarget(work: Work, kind: Kind, decision: Decision, expected: Option<int>, minutes: int): Option<Option<Status>> {
    match kind
    case PullRequest =>
      if work.status != AwaitingApproval then None
      else if decision == Approve then Some(Some(Committing)) else Some(Some(Implementing))
    case Budget =>
      if expected != Some(work.version) || work.status != BudgetExhausted then None
      else if decision == Approve then
        if 15 <= minutes <= 24 * 60 then Some(Some(Implementing)) else None
      else Some(None)
    case Console => Some(None)
  }

  /** The decision, its audit and the delivery it queues. */
  function Decided(s: DB, w: nat, actor: Actor, transport: Transport, kind: Kind, decision: Decision, moved: Work, needed: bool): DB
    requires w < |s.works|
  {
    var audit := Approval(w, s.works[w].scope, transport, actor.effective, kind, decision, s.works[w].status, moved.status,
                          moved.version, needed, if needed && w in s.bundles then Some(s.bundles[w]) else None);
    SetWork(s, w, moved).(audits := s.audits + [audit], jobs := if needed then QueueDelivery(s.jobs, w, |s.audits|) else s.jobs)
  }

  datatype Verdict = Verdict(target: Option<Status>, deliver: bool)

  /** What a decision leads to; `intact` says that GitHub is configured and the bundle bytes verify. */
  function Judge(s: DB, w: nat, kind: Kind, decision: Decision, expected: Option<int>, minutes: int, intact: bool): Option<Verdict>
    requires w < |s.works|
  {
    var target := DecisionTarget(s.works[w], kind, decision, expected, minutes);
    var needed := if kind == PullRequest && decision == Approve then DeliveryNeeded(s, w, intact) else Some(false);
    if target.None? || needed.None? then None else Some(Verdict(target.value, needed.value))
  }

  /** An approver of the work's organization decides, its worker is not quarantined, and Slack can only approve the pull request. */
  predicate MayDecide(s: DB, w: nat, actor: Actor, transport: Transport, kind: Kind, decision: Decision) {
    && w < |s.works| && Authorizes(actor, s.works[w], Approver) && WorkerFine(s, s.works[w])
    && (transport == Slack ==> kind == PullRequest && decision == Approve)
  }

  /** decide_approval, and the approve branch of slack_command */
  function Decide(s: DB, w: nat, actor: Actor, transport: Transport, kind: Kind, decision: Decision,
                  expected: Option<int>, minutes: int, intact: bool): Option<DB> {
    if !MayDecide(s, w, actor, transport, kind, decision) then None
    else
      var verdict := Judge(s, w, kind, decision, expected, minutes, intact);
      if verdict.None? then None
      else
        var work := s.works[w];
        var moved := if verdict.value.target.Some? then MoveWork(work, verdict.value.target.value, work.version) else Some(work);
        if moved.None? then None
        else Some(Decided(s, w, actor, transport, kind, decision, moved.value, verdict.value.deliver))
  }

  /* ---------- delivery ---------- */

  /** lock_delivery */
  predicate Lockable(s: DB, w: nat, states: set<JobState>) {
    && w < |s.works| && s.works[w].owner.Some? && s.works[w].owner.value < |s.workers|
    && !s.workers[s.works[w].owner.value].quarantined
    && w in s.jobs && s.works[w].status == Committing && s.jobs[w].state in states
  }

  /** delivery_authority: the approval that covers exactly this work version and this bundle. */
  function AuthorityOf(s: DB, w: nat): Option<Authority>
    requires w < |s.works| && w in s.jobs
  {
    var source := s.jobs[w].approval;
    if source.None? || source.value >= |s.audits| || w !in s.bundles then None
    else if Covers(s.audits[source.value], w, s.works[w], s.bundles[w])
      then Some(Authority(source.value, s.bundles[w], s.works[w].version))
    else None
  }

  predicate Covers(audit: Audit, w: nat, work: Work, digest: string) {
    && audit.Approval? && audit.work == w && audit.scope == work.scope
    && (audit.effective == Approver || audit.effective == Administrator)
    && audit.kind == PullRequest && audit.decision == Approve && audit.queued
    && audit.after == Committing && audit.version == work.version && IsDigest(digest) && audit.bundle == Some(digest)
  }

  function Log(s: DB, w: nat, action: DeliveryAction): DB {
    s.(audits := s.audits + [Delivery(w, action)])
  }

  /** fail_delivery under the delivery locks */
  function FailDelivery(s: DB, w: nat): Option<DB>
    requires w < |s.works| && w in s.jobs
  {
    var moved := MoveWork(s.works[w], Failed, s.works[w].version);
    if moved.None? then None
    else Some(Log(SetWork(s, w, moved.value).(jobs := s.jobs[w := s.jobs[w].(state := JobFailed)]), w, DeliveryFailed))
  }

  /** First transaction of _deliver_work. */
  function StartDelivery(s: DB, w: nat): Option<DB> {
    if w in s.attempts || !Lockable(s, w, {Pending, Retry}) then None
    else
      var running := s.(jobs := s.jobs[w := s.jobs[w].(state := Running, attempts := s.jobs[w].attempts + 1)]);
      var authority := AuthorityOf(running, w);
      if authority.None? then FailDelivery(running, w)
      else Some(Log(running, w, Started).(attempts := running.attempts[w := Attempt(authority.value, Begun)]))
  }

  function SetStage(s: DB, w: nat, stage: Stage): DB
    requires w in s.attempts
  {
    s.(attempts := s.attempts[w := s.attempts[w].(stage := stage)])
  }

  predicate WriteDue(stage: Stage, kind: WriteKind) {
    match kind
    case Token => stage == Begun
    case Push => stage == Authorized
    case PullRequestCreation => stage == Authorized || stage == Pushed
  }

  function AfterWrite(kind: WriteKind): Stage {
    match kind
    case Token => Authorized
    case Push => Pushed
    case PullRequestCreation => Published
  }

  /** guard_delivery_write around one external write; the locks are held until the write ends. */
  function GuardedWrite(s: DB, w: nat, kind: WriteKind, succeeds: bool): Option<DB> {
    if w !in s.attempts || !WriteDue(s.attempts[w].stage, kind) then None
    else if !Lockable(s, w, {Running}) then Some(SetStage(s, w, Stopping))
    else
      var authority := AuthorityOf(s, w);
      if authority.None? || authority.value.audit != s.attempts[w].authority.audit then Some(SetStage(s, w, Failing))
      else
        var event := Write(kind, w, s.works[w].owner.value, authority.value.audit, s.works[w].status, s.works[w].version,
                           s.jobs[w].state, s.bundles[w]);
        Some(SetStage(s, w, if succeeds then AfterWrite(kind) else Failing).(log := s.log + [event]))
  }

  /** The pull request of this branch exists already: nothing is written. */
  function FindPullRequest(s: DB, w: nat): Option<DB> {
    if w !in s.attempts || s.attempts[w].stage != Authorized then None else Some(SetStage(s, w, Published))
  }

  /** Any step of the delivery outside its transactions can fail. */
  function DeliveryError(s: DB, w: nat): Option<DB> {
    if w !in s.attempts || s.attempts[w].stage == Stopping then None else Some(SetStage(s, w, Failing))
  }

  /** The last transaction of a successful delivery. */
  function Finalize(s: DB, w: nat): Option<DB> {
    if w !in s.attempts || s.attempts[w].stage != Published then None
    else if !Lockable(s, w, {Running}) then Some(SetStage(s, w, Stopping))
    else
      var authority := AuthorityOf(s, w);
      if authority != Some(s.attempts[w].authority) then Some(SetStage(s, w, Failing))
      else
        var created := MoveWork(s.works[w], PrCreated, s.works[w].version);
        if created.None? then None
        else
          var completed := MoveWork(created.value, Completed, created.value.version);
          if completed.None? then None
          else
            var done := SetWork(s, w, completed.value).(jobs := s.jobs[w := s.jobs[w].(state := JobCompleted)]);
            Some(Log(done, w, Finished).(attempts := s.attempts - {w}))
  }

  /** What follows a stop or a failure: record the failure, or only that the delivery was fenced. */
  function Settle(s: DB, w: nat): Option<DB> {
    if w !in s.attempts || w >= |s.works| || (s.attempts[w].stage != Stopping && s.attempts[w].stage != Failing) then None
    else
      var dropped := s.(attempts := s.attempts - {w});
      if s.attempts[w].stage == Failing && Lockable(s, w, {Running}) then FailDelivery(dropped, w)
      else Some(Log(dropped, w, Stopped))
  }

  /** A failed commit ends the attempt and leaves the rows as they were; a crash ends all of them. */
  function DropAttempts(s: DB, ended: set<nat>): Option<DB> {
    Some(s.(attempts := s.attempts - ended))
  }

  /** Recovery of an interrupted delivery, before it is started again. */
  function Recover(s: DB, w: nat): Option<DB> {
    if w in s.attempts || !Lockable(s, w, {Pending, Retry, Running}) then None
    else if s.jobs[w].state != Running then Some(s)
    else Some(Log(s.(jobs := s.jobs[w := s.jobs[w].(state := Retry)]), w, Interrupted))
  }

  /* ---------- quarantine ---------- */

  function QuarantinedWorker(worker: Worker): Worker {
    worker.(quarantined := true, credentialRequired := true, state := Offline)
  }

  function RevokeOf(k: nat, credential: Credential): Credential {
    if credential.worker == k then credential.(revoked := true) else credential
  }

  function WithholdOf(k: nat, now: int, lease: Lease): Lease {
    if lease.worker == k && lease.state == Active then lease.(state := Withheld, expires := now) else lease
  }

  function EndOf(k: nat, work: Work): Work {
    if work.owner == Some(k) && !Terminal(work.status)
    then work.(status := QuarantineTarget(work.status), version := work.version + 1) else work
  }

  predicate InProgress(state: JobState) {
    state == Pending || state == Retry || state == Running
  }

  function FenceOf(k: nat, works: seq<Work>, w: nat, job: Job): Job {
    if w < |works| && works[w].owner == Some(k) && InProgress(job.state) then job.(state := JobQuarantined) else job
  }

  /** quarantine_worker */
  function Quarantine(s: DB, k: nat, now: int): Option<DB> {
    if k >= |s.workers| then None
    else if s.workers[k].quarantined then Some(s)
    else Some(s.(
      workers := s.workers[k := QuarantinedWorker(s.workers[k])],
      credentials := seq(|s.credentials|, i requires 0 <= i < |s.credentials| => RevokeOf(k, s.credentials[i])),
      leases := seq(|s.leases|, i requires 0 <= i < |s.leases| => WithholdOf(k, now, s.leases[i])),
      jobs := map w | w in s.jobs :: FenceOf(k, s.works, w, s.jobs[w]),
      works := seq(|s.works|, i requires 0 <= i < |s.works| => EndOf(k, s.works[i])),
      log := s.log + [Quarantined(k)]))
  }

  /* ---------- runs ---------- */

  datatype Action =
    | LRegister(cpu: int, memory: int, disk: int, mock: bool)
    | LUpdateWorker(k: nat, state: WorkerState, mock: bool)
    | LMint(k: nat, expires: int)
    | LRotate(c: nat, now: int, lifetime: int, overlap: int)
    | LRevoke(c: nat)
    | LCreateWork(scope: Scope, installation: bool)
    | LClaim(k: nat, w: nat, amount: Usage, expires: int)
    | LWorkerTransition(l: nat, now: int, seconds: int, target: Status, expected: int)
    | LRelease(l: nat, now: int, seconds: int)
    | LReconcile(k: nat, l: nat, w: nat, expected: int)
    | LCancelQueued(w: nat, actor: Actor, expected: int)
    | LFeedback(w: nat, actor: Actor)
    | LUpload(l: nat, now: int, seconds: int, digest: string)
    | LDecide(w: nat, actor: Actor, transport: Transport, kind: Kind, decision: Decision, version: Option<int>, minutes: int, intact: bool)
    | LStartDelivery(w: nat)
    | LGuardedWrite(w: nat, write: WriteKind, succeeds: bool)
    | LFindPullRequest(w: nat)
    | LDeliveryError(w: nat)
    | LFinalize(w: nat)
    | LSettle(w: nat)
    | LDropAttempts(ended: set<nat>)
    | LRecover(w: nat)
    | LQuarantine(k: nat, now: int)

  function Apply(s: DB, action: Action): Option<DB> {
    match action
    case LRegister(cpu, memory, disk, mock) => Register(s, cpu, memory, disk, mock)
    case LUpdateWorker(k, state, mock) => UpdateWorker(s, k, state, mock)
    case LMint(k, expires) => Mint(s, k, expires)
    case LRotate(c, now, lifetime, overlap) => Rotate(s, c, now, lifetime, overlap)
    case LRevoke(c) => Revoke(s, c)
    case LCreateWork(scope, installation) => CreateWork(s, scope, installation)
    case LClaim(k, w, amount, expires) => Claim(s, k, w, amount, expires)
    case LWorkerTransition(l, now, seconds, target, expected) => WorkerTransition(s, l, now, seconds, target, expected)
    case LRelease(l, now, seconds) => Release(s, l, now, seconds)
    case LReconcile(k, l, w, expected) => Reconcile(s, k, l, w, expected)
    case LCancelQueued(w, actor, expected) => CancelQueued(s, w, actor, expected)
    case LFeedback(w, actor) => GiveFeedback(s, w, actor)
    case LUpload(l, now, seconds, digest) => Upload(s, l, now, seconds, digest)
    case LDecide(w, actor, transport, kind, decision, version, minutes, intact) =>
      Decide(s, w, actor, transport, kind, decision, version, minutes, intact)
    case LStartDelivery(w) => StartDelivery(s, w)
    case LGuardedWrite(w, write, succeeds) => GuardedWrite(s, w, write, succeeds)
    case LFindPullRequest(w) => FindPullRequest(s, w)
    case LDeliveryError(w) => DeliveryError(s, w)
    case LFinalize(w) => Finalize(s, w)
    case LSettle(w) => Settle(s, w)
    case LDropAttempts(ended) => DropAttempts(s, ended)
    case LRecover(w) => Recover(s, w)
    case LQuarantine(k, now) => Quarantine(s, k, now)
  }

  /** A refused transaction leaves the state as it was. */
  function Step(s: DB, action: Action): DB {
    var r := Apply(s, action);
    if r.None? then s else r.value
  }

  function Run(s: DB, actions: seq<Action>): DB
    decreases actions
  {
    if actions == [] then s else Run(Step(s, actions[0]), actions[1..])
  }
}
