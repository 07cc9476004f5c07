# Kelpie, verified

Kelpie is a control plane that hands work to worker hosts, each of which runs a work item in its own virtual
machine, and publishes the result only after a person approved it. This project models the protocols that make
this safe and proves, in Dafny, what they promise over every run: in every interleaving, after every crash, and
for every answer of the outside world.

The project has five parts, each in the form of the code it models.

* **The control plane** (`StateMachine`, `ControlPlane`, `ControlPlaneInvariants`, `ControlPlaneHistory`,
  `ControlPlaneProperties`, `ControlPlaneDelivery`, `ControlPlaneRules`, `ControlPlaneCapacity`, `ControlPlaneStore`). `ControlPlane` gives every transaction as a
  function from a database to the committed database, or to a refusal. `ControlPlaneInvariants` proves one
  invariant of all of them, `ControlPlaneHistory` what a run can never undo, and `ControlPlaneProperties`,
  `ControlPlaneDelivery` and `ControlPlaneCapacity` the promises that follow; `ControlPlaneRules` says in the columns of
  the rows when a transaction is accepted. `ControlPlaneStore` performs the same transactions row by row,
  with its loops and its rollbacks, and is proved to commit exactly what the functions say. `LockOrder` has the row
  locks of these transactions.
* **Ownership of runs on a worker host** (`Journal`, `RunStore`, `Ipv4`, `NetworkIdentity`, `GuestEgress`,
  `HostInventory`, `HostNetwork`, `WorkerRelease`, `ReleaseProtocol`, `ReleaseRestart`): the marker-file journal under interrupted
  writes, the subnet allocator, ordered provisioning and cleanup with a snapshot at every effect, and the release
  handshake with the API over lost acknowledgements and restarts.
* **Artifact retention and backup** (`Retention`, `RetentionStore`, `RetentionSweep`, `Snapshot`, `SnapshotRestore`):
  two-phase expiration, the paged sweep, and the content-addressed snapshot that restores exactly.
* **The guest firewall** (`FirewallPolicy`, `PacketPolicy`): the generated rules as data, and what every packet may do
  under them.
* **Telemetry redaction** (`Redaction`): a string proof that the lease token is gone.

Where something depends on the outside, it is a parameter that may have any value: the clock, the host's answers,
where a write is interrupted, which of several queued works the database hands out. Hash functions are parameters; where
two contents must be told apart, the statement names the contents (`Snapshot.NoCollisions`). The text of journal records
and manifests is a codec that reads back what it wrote and, for the journal, writes no newline inside a record.

Seven promises do not hold in the obvious generality, and the proofs say exactly when they do.

* Redaction erases a lease without brackets from every tree if and only if the lease is not part of the word
  `REDACTED` (`Redaction.TreeErasureCondition`), and exactly then a second pass changes no tree
  (`Redaction.IdempotenceCondition`); the tokens that the control plane issues always qualify
  (`Redaction.IssuedTokensAreErased`).
* A marker of which a strict first part reached the disk makes its run unloadable, and exactly that does
  (`Journal.StepIsCrashSafe`); such a run stays unloadable for good (`RunStore.HistoryMovesForward`).
* For the same reason a cleanup on a working host removes everything a run made if and only if none of its markers was
  cut short (`HostNetwork.CrashAndRecover`); `HostNetwork.TornMarkerStrands` is a run whose network stays active for good.
* Capacity can be returned before a run's journal reached cleaned: when the record was written in full but its
  synchronization was reported as failed, the run is never bound to its claim and nothing is cleaned up before the release
  (`ReleaseRestart.UnboundRunReturnsUncleaned`). This happens to unbound runs only
  (`ReleaseProtocol.WhenReturnedUncleaned`), and a restart still cleans and settles them with one return.
* Whether a restarted worker serves again is decided by the columns that heartbeats overwrite, not by the leases: it does
  if and only if it is not quarantined, every journal can be read, every unsettled run can be reconciled, and the count
  published last is no more than what that reconciliation gives back (`ReleaseRestart.RestartServes`). A heartbeat after a
  release that the worker did not hear of stops it for good (`ReleaseRestart.HeartbeatAfterUnheardRelease`); a heartbeat
  after a lost claim lets it serve beside an active lease that is on no record (`ReleaseRestart.HeartbeatAfterLostClaim`).
  As long as no heartbeat differs from what the API holds, the leases decide (`ReleaseRestart.AgreedRestartServes`).
* A backup restores every artifact exactly if and only if no two live contents of it have the same digest
  (`SnapshotRestore.Drill`).
* The transition table lets FAILED be left (`StateMachine.OnlyFailedIsLeft`), but no transaction does so: terminal work
  never changes again (`ControlPlaneProperties.TerminalIsAbsorbing`).

## Model

| member | source | states |
|---|---|---|
| StateMachine.WorkerIsNarrower | apps/api/app/worker_transitions.py:10-26 | Every edge a lease may ask for is an edge of the platform; none starts, approves or leaves terminal work; PR_CREATED and COMPLETED are reached only from COMMITTING and PR_CREATED. |
| StateMachine.QuarantineIsTotal | apps/api/app/worker_quarantine.py:91-96 | From every unfinished status, quarantine's target is an allowed edge and is terminal. |
| StateMachine.OnlyFailedIsLeft | apps/api/app/state_machine.py:3-49 | The only edges of the table out of a terminal status lead from FAILED to QUEUED or CANCELLED. |
| StateMachine.EnteredFrom | apps/api/app/state_machine.py:3-49 | The table read by target: from which statuses each status is entered. |
| StateMachine.WorkersShare | apps/api/app/worker_transitions.py:10-26 | A worker's edges are the platform's except those that start, approve or resume work or leave ended work. |
| ControlPlaneInvariants.AuthorityIsPinned | apps/api/app/delivery_audit.py:24-53 | Under the invariant, a committing work with a delivery job has an authority, and it is that of its approval audit. |
| ControlPlaneInvariants.UnapprovedIsFresh | apps/api/app/main.py:294-305 | Work that was neither approved nor failed has no approval, no delivery job and no running delivery, so an approval always queues a new job. |
| ControlPlaneInvariants.ClaimKeeps | apps/api/app/service.py:167-223 | A claim keeps the invariant: leases belong to the worker of their work and a work has at most one. |
| ControlPlaneInvariants.WorkerTransitionKeeps | apps/api/app/main.py:1006-1027 | A worker's transition keeps the invariant; progress past COMMITTING stays within the approved version. |
| ControlPlaneInvariants.DecideKeeps | apps/api/app/main.py:745-813 | Every decision keeps the invariant; an approval becomes the one approval of its work, of that version and that bundle. |
| ControlPlaneInvariants.StartDeliveryKeeps | apps/api/app/delivery.py:216-245 | Starting a delivery keeps the invariant: it acts on the authority of the approval audit. |
| ControlPlaneInvariants.GuardedWriteKeeps | apps/api/app/delivery.py:85-97 | A guarded external write keeps the invariant of the write history. |
| ControlPlaneInvariants.FinalizeKeeps | apps/api/app/delivery.py:340-372 | Finishing a delivery moves work and job together and keeps the invariant. |
| ControlPlaneInvariants.SettleKeeps | apps/api/app/delivery.py:374-401 | Recording a failed or fenced delivery keeps the invariant. |
| ControlPlaneInvariants.RecoverKeeps | apps/api/app/delivery.py:164-187 | Recovery of an interrupted delivery keeps the invariant. |
| ControlPlaneInvariants.QuarantineKeeps | apps/api/app/worker_quarantine.py:48-104 | Quarantine keeps the invariant and fences credentials, leases, works and jobs of its worker. |
| ControlPlaneHistory.StepKeeps | apps/api/app/service.py:97-259 | Every transaction of the platform keeps the invariant. |
| ControlPlaneHistory.RunEvolves | apps/api/app/service.py:97-144 | Over any run: a version names one state of a work, owners stay, terminal work, settled jobs, ended leases and quarantined workers never change, no lease goes to a quarantined worker, audits and the write history only grow. |
| ControlPlaneHistory.ReachableIsSound | apps/api/app/main.py:669-1278 | The invariant holds in every reachable state. |
| ControlPlaneProperties.ApprovalGate | apps/api/app/delivery_audit.py:39-52 | In every reachable state, work in COMMITTING, PR_CREATED or COMPLETED has exactly one pull-request approval, by an approver or administrator, recorded for the version at which COMMITTING was entered. |
| ControlPlaneProperties.TerminalIsAbsorbing | apps/api/app/state_machine.py:43-49 | Completed, failed and cancelled work is unchanged in every continuation. |
| ControlPlaneProperties.ClaimedAtMostOnce | apps/api/app/service.py:181-203 | No continuation gives a claimed work a second lease or another owner. |
| ControlPlaneProperties.GuardedWriteIsFenced | apps/api/app/delivery.py:86-97 | A guarded write happens if and only if the work is committing at the approved version, its job runs, its bundle is the approved one and its worker is not quarantined; the event records exactly these rows. |
| ControlPlaneProperties.WritesStartApproved | apps/api/app/delivery.py:258-339 | In every interleaving, every external write starts under these conditions. |
| ControlPlaneProperties.NoWriteAfterQuarantine | apps/api/app/worker_quarantine.py:53-81 | No external write for a worker's work starts after its quarantine committed. |
| ControlPlaneProperties.AuthorityIsStable | apps/api/app/delivery_audit.py:24-53 | From the approval until COMMITTING is left, delivery_authority succeeds and returns the same audit, digest and version in every continuation. |
| ControlPlaneProperties.DeliveryIsNeverMismatched | apps/api/app/delivery.py:343-347 | A delivery that still holds its locks always finds the authority it started with: the mismatch branch is unreachable. |
| ControlPlaneProperties.DeliveryEndsWithItsWork | apps/api/app/delivery.py:66-82 | A job is completed if and only if its work is; a job in progress means COMMITTING or FAILED; committing work has a job in progress. |
| ControlPlaneDelivery.DeliveriesAreInOrder | apps/api/app/delivery.py:258-339 | In every run an attempt obtains its token first, pushes at most once and before it creates the pull request, creates none that it found, and does nothing after a write that failed. |
| ControlPlaneDelivery.CompletionIsPublished | apps/api/app/delivery.py:331-372 | In every run a delivery completes work only when this attempt obtained its token and then found a pull request or created one. |
| ControlPlaneDelivery.DeliveryCompletes | apps/api/app/delivery.py:216-372 | A delivery that was started and that nobody disturbs completes its work in each of the three ways. |
| ControlPlaneProperties.MockProgress | apps/api/app/worker_transitions.py:38-66 | In every reachable state a worker may report PR_CREATED or COMPLETED if and only if the work is its own, its host is labelled mock, there is no delivery job and the status is the one before: the recorded approval then always covers it. |
| ControlPlaneProperties.QuarantineEndsEverything | apps/api/app/worker_quarantine.py:72-96 | Quarantine never meets a forbidden transition, ends every work of the worker and leaves all other works as they were. |
| ControlPlaneProperties.QuarantineIsPermanent | apps/api/app/service.py:239-250 | In every continuation the quarantined worker's row and the state of its leases are unchanged, it has no new lease, and none validates. |
| ControlPlaneProperties.QuarantineRefuses | apps/api/app/worker_credentials.py:71-109 | In every continuation a quarantined worker does not authenticate, gets no credential and claims nothing, and quarantining it again changes nothing. |
| ControlPlaneRules.ExpiredLeaseIsRefused | apps/api/app/service.py:251-257 | With an expired lease no work moves, no capacity returns, no bundle is uploaded and nothing is renewed. |
| ControlPlaneRules.AcceptedLeaseIsRenewed | apps/api/app/service.py:226-259 | Every accepted call of a lease found it active, unexpired and of an unquarantined worker, and renews it from the time of the call; no other lease changes. |
| ControlPlaneRules.ReleaseAccepted | apps/api/app/main.py:1195-1216 | A release needs a valid lease of completed, failed or cancelled work, and nothing else. |
| ControlPlaneRules.UploadAccepted | apps/api/app/main.py:1219-1278 | A bundle is taken exactly under a lower-case SHA-256, for work that is verified or waits for approval. |
| ControlPlaneRules.WorkerTransitionAccepted | apps/api/app/main.py:1006-1027 | What an accepted transition of a worker found: its own work at the expected version, an edge that approves nothing, and past COMMITTING a mock host without a delivery. |
| ControlPlaneRules.ReconcileAccepted | apps/api/app/worker_leases.py:55-104 | Exactly when a worker may settle a lease: its own, of ended work at the version read, with no unfinished delivery. |
| ControlPlaneRules.ClaimAccepted | apps/api/app/service.py:167-223 | Exactly when and for which amounts a worker claims queued work, and the rows it then makes. |
| ControlPlaneRules.RegistrationAccepted | apps/api/app/main.py:884-918 | With which capacity a worker registers first, and the row it then gets. |
| ControlPlaneRules.AuthenticationAccepted | apps/api/app/worker_credentials.py:71-92 | Exactly when a credential authenticates. |
| ControlPlaneRules.RotationAccepted | apps/api/app/worker_credentials.py:131-145 | Only a credential that authenticates is rotated; its successor and how long it stays valid. |
| ControlPlaneRules.ApprovalAccepted | apps/api/app/main.py:745-813 | Exactly who may approve which work: an approver of its organization, with an intact bundle of an installed repository unless it ran on a mock host. |
| ControlPlaneRules.ApprovalQueues | apps/api/app/main.py:294-305 | An approval commits the work and, outside a mock host, queues one new delivery that this approval and its bundle authorize. |
| ControlPlaneRules.RejectionAccepted | apps/api/app/main.py:745-813 | Exactly when a pull request is rejected, and that the work goes back to be implemented. |
| ControlPlaneRules.BudgetAccepted | apps/api/app/main.py:745-813 | Exactly when an exhausted budget is extended, by 15 minutes to a day at the version that was seen. |
| ControlPlaneRules.FeedbackAccepted | apps/api/app/main.py:689-732 | Exactly who may give feedback to which work, and which work it resumes. |
| ControlPlaneRules.CancellationAccepted | apps/api/app/service.py:147-164 | Exactly when queued work is cancelled: by an administrator, at the version that was seen. |
| ControlPlaneRules.StartAccepted | apps/api/app/delivery.py:216-245 | Exactly when a delivery starts, and that in reachable states it then has its authority. |
| ControlPlaneRules.AuthorityAccepted | apps/api/app/delivery_audit.py:24-53 | In every state, exactly which approval authorizes a delivery. |
| ControlPlaneRules.MockApprovalAccepted | apps/api/app/worker_transitions.py:40-66 | Exactly which approval lets a mock run report progress past COMMITTING. |
| ControlPlaneRules.WriteAccepted | apps/api/app/delivery.py:85-97 | In every state, exactly when a due write is made. |
| ControlPlaneRules.StoppedIsOnlyNoted | apps/api/app/delivery.py:374-442 | A delivery that a fence stopped stays stopped; its end changes no work and no job. |
| ControlPlaneRules.RecoveryAccepted | apps/api/app/delivery.py:157-187 | Exactly which deliveries recovery looks at, and that it changes only the running ones. |
| ControlPlaneRules.FailureIsSettled | apps/api/app/delivery.py:374-424 | A failed delivery fails work and job exactly while they are still its own, and otherwise changes neither. |
| ControlPlaneCapacity.ReturningIsExact | apps/api/app/worker_leases.py:44-52 | The clamps at the totals and at zero never bind: returning a lease gives back exactly its amount. |
| ControlPlaneCapacity.CapacityIsConserved | apps/api/app/worker_leases.py:44-52 | Over any run, available CPU and memory plus those of active and quarantined leases are the worker's totals, and active_runs counts these leases. |
| ControlPlaneCapacity.DiskIsConserved | apps/api/app/service.py:218-221 | Over any run, available disk plus that of active and quarantined leases stays the same. |
| ControlPlaneCapacity.CapacityReturnsOnce | apps/api/app/worker_leases.py:55-104 | A lease returns its capacity only when active and its work has ended, exactly its amount, to its own worker, and never again in any continuation. |
| ControlPlaneStore.Database.TransitionWorkItem | apps/api/app/service.py:97-144 | Moves a work along an allowed edge at the expected version and counts the version, or changes nothing. |
| ControlPlaneStore.Database.ValidateLease | apps/api/app/service.py:226-259 | Accepts exactly an active lease that is not expired, of a worker that is not quarantined, and renews it. |
| ControlPlaneStore.Database.ReturnLeaseResources | apps/api/app/worker_leases.py:44-52 | Gives a lease's amount back to its worker and ends the lease. |
| ControlPlaneStore.Database.ClaimNextWork | apps/api/app/service.py:167-223 | Claims the oldest queued work that no other transaction holds; claims nothing only when there is none or the worker may not claim. |
| ControlPlaneStore.Database.TransitionRun | apps/api/app/main.py:1006-1027 | Commits exactly the specified worker transition, and rolls the renewed lease back when it is refused. |
| ControlPlaneStore.Database.MayTransition | apps/api/app/worker_transitions.py:29-66 | Decides exactly the authority of a lease over a transition. |
| ControlPlaneStore.Database.LatestDecision | apps/api/app/worker_transitions.py:44-48 | Finds the newest pull-request decision about a work. |
| ControlPlaneStore.Database.ReleaseRun | apps/api/app/main.py:1195-1216 | Commits exactly the specified release of a terminal run. |
| ControlPlaneStore.Database.UploadBundle | apps/api/app/main.py:1219-1278 | Records a bundle only while the work is verified or awaits approval. |
| ControlPlaneStore.Database.RecordedReconciliation | apps/api/app/worker_leases.py:71-74 | Finds an earlier reconciliation of the same lease. |
| ControlPlaneStore.Database.ReconcileTerminalLease | apps/api/app/worker_leases.py:55-104 | Commits exactly the specified reconciliation; a repeated one changes nothing. |
| ControlPlaneStore.Database.CancelQueuedWork | apps/api/app/service.py:147-164 | Cancels exactly queued work that was never assigned or leased. |
| ControlPlaneStore.Database.AddFeedback | apps/api/app/main.py:689-732 | Commits exactly the specified feedback and the resumption it causes. |
| ControlPlaneStore.Database.QueueDeliveryJob | apps/api/app/main.py:294-305 | Never revives a completed job; otherwise the job waits for this approval. No other job is touched. |
| ControlPlaneStore.Database.DecideApproval | apps/api/app/main.py:735-819 | Commits exactly the specified decision with its audit and its delivery job, from the web or from Slack. |
| ControlPlaneStore.Database.Fail | apps/api/app/delivery.py:405-424 | Fails job and work together. |
| ControlPlaneStore.Database.Start | apps/api/app/delivery.py:216-245 | Commits exactly the specified start, or fails the delivery without authority. |
| ControlPlaneStore.Database.GuardWrite | apps/api/app/delivery.py:85-97 | Performs exactly the specified guarded write. |
| ControlPlaneStore.Database.Finish | apps/api/app/delivery.py:340-373 | Commits exactly the specified completion, with both transitions. |
| ControlPlaneStore.Database.SettleDelivery | apps/api/app/delivery.py:374-442 | Records exactly the specified end of a delivery that did not finish. |
| ControlPlaneStore.Database.RecoverDelivery | apps/api/app/delivery.py:157-187 | Turns exactly an interrupted running job into a retry. |
| ControlPlaneStore.Database.MintCredential | apps/api/app/worker_credentials.py:95-109 | Afterwards the new credential authenticates exactly until it expires and every other one as before; never for a quarantined worker. |
| ControlPlaneStore.Database.RotateCredential | apps/api/app/worker_credentials.py:131-145 | Afterwards the new credential authenticates for its lifetime, the old one no longer than before and at most for the overlap, every other one as before. |
| ControlPlaneStore.Database.RevokeCredential | apps/api/app/worker_credentials.py:148-156 | Afterwards the credential never authenticates, and every other one as before. |
| ControlPlaneStore.Database.RevokeCredentials | apps/api/app/worker_quarantine.py:59-64 | Revokes every credential of the worker and no other. |
| ControlPlaneStore.Database.WithholdLeases | apps/api/app/worker_quarantine.py:65-70 | Ends the authority of every active lease of the worker and of no other. |
| ControlPlaneStore.Database.EndWorks | apps/api/app/worker_quarantine.py:72-96 | Fences every delivery and ends every work of the worker and of no other. |
| ControlPlaneStore.Database.QuarantineWorker | apps/api/app/worker_quarantine.py:48-104 | Commits exactly the specified quarantine. |
| LockOrder.EveryPathIncreases | apps/api/app/worker_quarantine.py:52-87 | Every transaction, with quarantine and retention over any ordered sets of rows, takes its locks in one strict global order. |
| LockOrder.RowsAreLocked | apps/api/app/worker_quarantine.py:52-87 | Every transaction on a worker, a work or its delivery holds the lock of that row. |
| LockOrder.SameRowExcludes | apps/api/app/delivery.py:66-82 | Two transactions on the same worker or work have that row's lock in common, so that they exclude each other. |
| LockOrder.NoCircularWait | apps/api/app/delivery.py:66-82 | No set of concurrent transactions, wherever each stands, contains a cyclic wait. |
| LockOrder.SomeoneProceeds | apps/api/app/artifact_retention.py:92-126 | While any transaction still needs a lock, one of them waits for nobody that is itself waiting. |
| Redaction.ReplaceDecomposes | apps/api/app/event_redaction.py:34-35 | Replacement is the leftmost non-overlapping one: the gaps joined by the pattern are the input and joined by the mask the output. |
| Redaction.LeftmostIsUnique | apps/api/app/event_redaction.py:34-35 | There is only one such decomposition. |
| Redaction.ReplaceErases | apps/api/app/event_redaction.py:34-35 | The replaced pattern occurs nowhere in the output, not even across replacement boundaries. |
| Redaction.ErasureCondition | apps/api/app/event_redaction.py:34-35 | For a pattern without brackets this holds of all strings if and only if the pattern is not part of the mask's word. |
| Redaction.LeaseErased | apps/api/app/event_redaction.py:17-36 | For any JSON tree, no key and no string of the output contains the lease. |
| Redaction.TreeErasureCondition | apps/api/app/event_redaction.py:17-36 | The condition under which every tree is cleaned, in both directions. |
| Redaction.CredentialsAreMasked | apps/api/app/event_redaction.py:24-31 | Every field of the output with a credential name holds the mask, at every depth. |
| Redaction.CredentialNames | apps/api/app/event_redaction.py:10-15 | Which normalized names are credentials. |
| Redaction.StripDrops | apps/api/app/event_redaction.py:28 | Normalizing drops dashes and underscores anywhere, and nothing else. |
| Redaction.OneField | apps/api/app/event_redaction.py:25-32 | A field with such a name gets the mask, any other its redacted value, both under the redacted key. |
| Redaction.CredentialsDoNotMatter | apps/api/app/event_redaction.py:24-31 | Two trees that differ only in what credential fields hold have the same output: nothing of them leaks. |
| Redaction.PutMeaning | apps/api/app/event_redaction.py:24-31 | Keys that become equal collapse into the place of the first with the value of the last, and nothing else changes. |
| Redaction.OutputIsDictionary | apps/api/app/event_redaction.py:24-31 | No object of the output repeats a key. |
| Redaction.CleanIsKept | apps/api/app/event_redaction.py:17-36 | A tree without the lease and with masked credentials is left unchanged. |
| Redaction.RedactIsIdempotent | apps/api/app/event_redaction.py:17-36 | Redacting twice is redacting once, for such a lease. |
| Redaction.IdempotenceCondition | apps/api/app/event_redaction.py:17-36 | A bracket-free lease leaves every redacted tree unchanged on a second pass if and only if it is empty or not part of the mask's word. |
| Redaction.IssuedTokensAreErased | apps/api/app/service.py:198 | All of this holds of every token that the control plane issues. |
| Ipv4.OverlapsMeansShared | apps/worker/internal/daemon/network_identity.go:105-109 | Two prefixes overlap, compared at the shorter length, if and only if some address lies in both. |
| Ipv4.PrivateBlock | apps/worker/internal/daemon/network_identity.go:42 | Every address of a masked pool of at least 16 leading bits is private (RFC 1918 section 3) when its first one is. |
| GuestEgress.WithHost | apps/worker/internal/daemon/network_internet.go:60-78 | Accepts exactly complete, well-formed inventories and adds every host address and the control address to the denied list. |
| GuestEgress.WithHostDenies | apps/worker/internal/daemon/network_internet.go:60-78 | After that an address is denied if and only if it was before or is a host's or the control's, and DNS is not. |
| NetworkIdentity.SlotInPool | apps/worker/internal/daemon/network_identity.go:124-132 | Every slot of a pool is a private, aligned /30 inside it; the 32-bit arithmetic never wraps. |
| NetworkIdentity.PoolIsSlots | apps/worker/internal/daemon/network_identity.go:126 | Every aligned /30 of the pool is a slot. |
| NetworkIdentity.ProbesReach | apps/worker/internal/daemon/network_identity.go:128-131 | Probing from any start visits each slot, and each of them once. |
| NetworkIdentity.CheckOccupied | apps/worker/internal/daemon/network_identity.go:95-113 | The validation loop accepts exactly networks that are valid and share no name, bridge, MAC or address. |
| NetworkIdentity.FirstFree | apps/worker/internal/daemon/network_identity.go:129-144 | Returns the first free slot of the probing order; fails only when every aligned /30 is blocked. |
| NetworkIdentity.AllocateRunNetwork | apps/worker/internal/daemon/network_identity.go:90-145 | Sound: a valid /30 in the pool, apart from everything occupied and excluded. Complete: with admissible inputs it fails only when every aligned /30 is blocked. |
| NetworkIdentity.UnblockedIsDisjoint | apps/worker/internal/daemon/network_identity.go:133-142 | No address of an unblocked subnet lies in an occupied or excluded prefix. |
| NetworkIdentity.NetworkAccepted | apps/worker/internal/daemon/network_identity.go:63-88 | Exactly which recorded networks are valid. |
| NetworkIdentity.PrefixAccepted | apps/worker/internal/daemon/network_identity.go:37-49 | Exactly which pools and exclusions are accepted. |
| NetworkIdentity.BlockedShares | apps/worker/internal/daemon/network_identity.go:134-138 | A subnet is blocked if and only if it shares an address with something occupied or excluded. |
| Journal.Load | apps/worker/internal/daemon/run_store.go:238-272 | The loading loop computes the specified run, or fails. |
| Journal.LoadsExactlyLegalPaths | apps/worker/internal/daemon/run_store.go:257-271 | A directory loads if and only if its record is valid and its markers form a legal path with nondecreasing times; the result is the end of that path. |
| Journal.LoadedIsOwn | apps/worker/internal/daemon/run_store.go:240-272 | A directory that loads holds the canonical record, of at most 4096 characters, of its own lease, with its domain, positive resources and a valid network of its schema's version; its phase is that of its last marker file. |
| Journal.OwnIsLoaded | apps/worker/internal/daemon/run_store.go:240-272 | A directory with nothing but such a record loads as prepared. |
| Journal.TornIsBroken | apps/worker/internal/daemon/run_store.go:335-358 | A strict first part of a record or marker never reads as one. |
| Journal.WritesAreExclusive | apps/worker/internal/daemon/run_store.go:360-376 | A write replaces no file, touches no other, and is reported only when all of it is there. |
| Journal.StepIsCrashSafe | apps/worker/internal/daemon/run_store.go:280-301 | After a step interrupted anywhere, the run loads in the phase before, in the phase after, or not at all; the last exactly when a strict first part was left. |
| Journal.AdvanceIsIdempotent | apps/worker/internal/daemon/run_store.go:287-289 | Asking again for the phase that was reached changes nothing. |
| RunStore.HistoryKeepsNetworksApart | apps/worker/internal/daemon/run_store.go:150-205 | Over any history of creations, steps and interrupted writes, networks of unreleased runs are valid, inside the pool and pairwise disjoint with distinct names, bridges and MACs. |
| RunStore.HeldAddressesAreDisjoint | apps/worker/internal/daemon/run_store.go:150-172 | No address is shared by two held networks, and no recorded control address lies in any of them. |
| RunStore.HistoryMovesForward | apps/worker/internal/daemon/run_store.go:213-229 | A lease directory is never reused or removed, its record never changes, its journal only moves forward, and what cannot be loaded never can be again. |
| RunStore.RefusalIsExhaustion | apps/worker/internal/daemon/network_identity.go:99-123 | On a store that this code wrote, the allocator refuses only for exhaustion or an identity collision, never because of the stored runs. |
| RunStore.Store.List | apps/worker/internal/daemon/run_store.go:309-333 | Lists every run, or nothing when one entry cannot be loaded. |
| RunStore.Store.Persist | apps/worker/internal/daemon/run_store.go:209-230 | Creates a directory that did not exist and its record, or leaves at most what an interrupted write left. |
| RunStore.Store.Reserve | apps/worker/internal/daemon/run_store.go:174-205 | Allocates and records a network apart from everything held. |
| RunStore.Store.CreateNetworked | apps/worker/internal/daemon/run_store.go:144-146 | Records a network of version 1. |
| RunStore.Store.CreateControlled | apps/worker/internal/daemon/run_store.go:150-159 | Refuses exactly a malformed or in-pool control endpoint, and records version 2. |
| RunStore.Store.CreateInternet | apps/worker/internal/daemon/run_store.go:161-172 | Records version 3 with every host address and the control address denied. |
| RunStore.Store.Advance | apps/worker/internal/daemon/run_store.go:280-301 | Performs exactly the specified journal step. |
| HostInventory.ReferencedSomewhere | apps/worker/internal/daemon/network_host_inventory.go:92-113 | A foreign definition refers to the network if and only if a node at any depth names it. |
| HostInventory.Inventory.Exclude | apps/worker/internal/daemon/network_host_inventory.go:38-53 | Adds exactly the addresses of the block, once, within the limit. |
| HostInventory.Inventory.ReadAddresses | apps/worker/internal/daemon/network_host_inventory.go:129-148 | Excludes every interface prefix and records exactly the host's addresses. |
| HostInventory.Inventory.AvailableIsApart | apps/worker/internal/daemon/network_host_inventory.go:72-77 | No address of an available network is excluded. |
| HostInventory.Inventory.AvailableIsUnknown | apps/worker/internal/daemon/network_host_inventory.go:55-110 | Nothing foreign, at any depth, bears the identity, a name, the bridge or a MAC of an available network, and no interface its bridge or a MAC. |
| HostInventory.Inventory.HostsAreUnreachable | apps/worker/internal/daemon/network_host_inventory.go:55-71 | No packet of the guest of an available network reaches an address of the host, in any version. |
| FirewallPolicy.Boundary | apps/worker/internal/daemon/network_internet_policy.go:22-26 | Finds the first rule accepting outgoing frames at -800. |
| FirewallPolicy.Append | apps/worker/internal/daemon/network_internet_policy.go:32-40 | The loops write the denials of all prefixes and then the openings of all protocols. |
| FirewallPolicy.Policy | apps/worker/internal/daemon/network_control_policy.go:12-48 | Generates a policy exactly for a valid record, by version, reusing the anti-spoofing rules of version 2 in version 3. |
| FirewallPolicy.LayerDecides | apps/worker/internal/daemon/network_internet_policy.go:29-47 | A layer of rules of lower priority and one action decides when it matches, and otherwise makes no difference. |
| PacketPolicy.InternetVerdict | apps/worker/internal/daemon/network_internet_policy.go:10-49 | Which packets version 3 accepts, in both directions, exactly. |
| PacketPolicy.ControlVerdict | apps/worker/internal/daemon/network_control_policy.go:26-39 | Which packets version 2 accepts, exactly. |
| PacketPolicy.QuarantineVerdict | apps/worker/internal/daemon/network_xml.go:32-47 | Version 1 accepts nothing. |
| PacketPolicy.InternetExtendsControl | apps/worker/internal/daemon/network_internet_policy.go:15-31 | Whatever version 2 accepts, version 3 accepts. |
| PacketPolicy.PublicEgress | apps/worker/internal/daemon/network_internet_policy.go:29-47 | An outgoing IP packet passes if and only if it carries the guest's MAC and address toward the gateway and is TCP to the control endpoint or an admitted protocol to an address in no special-use range and no denied prefix. |
| PacketPolicy.ReservedIsSpecialUse | apps/worker/internal/daemon/network_internet.go:14-19 | The reserved prefixes cover exactly the fifteen special-use ranges, given by their addresses. |
| PacketPolicy.ControlAccepted | apps/worker/internal/daemon/guest_control.go:23-48 | Exactly which control endpoints are accepted. |
| PacketPolicy.InternetAccepted | apps/worker/internal/daemon/network_internet.go:26-68 | Exactly which egress policies are accepted: public DNS, and 1 to 32 masked prefixes none of which holds it. |
| PacketPolicy.PrivateIsReserved | apps/worker/internal/daemon/network_internet.go:14-19 | The private ranges of RFC 1918 are among the reserved ones. |
| PacketPolicy.DnsIsReachable | apps/worker/internal/daemon/network_internet.go:39-55 | The configured DNS server stays reachable. |
| PacketPolicy.NothingUnsolicited | apps/worker/internal/daemon/network_internet_policy.go:42-47 | In every sequence of packets, an IP packet comes in only as the reply to one that went out before. |
| PacketPolicy.RunsExtend | apps/worker/internal/daemon/network_internet_policy.go:10-49 | In every sequence of packets, what passes under version 2 passes under version 3. |
| PacketPolicy.InternetIsTieFree | apps/worker/internal/daemon/network_internet_policy.go:30-47 | Rules of version 3 with the same priority do the same. |
| PacketPolicy.ControlIsTieFree | apps/worker/internal/daemon/network_control_policy.go:28-38 | Rules of version 2 with the same priority do the same. |
| PacketPolicy.OrderDoesNotMatter | apps/worker/internal/daemon/network_internet_policy.go:32-40 | Without such ties, verdicts do not depend on the order in which rules are written. |
| HostNetwork.Host.Create | apps/worker/internal/daemon/network_provision.go:27-127 | At every crash point an own network has its filter and an own network or filter has both exact definition files; on success the network is active under its filter; on a working host it succeeds. |
| HostNetwork.Host.WriteDefinition | apps/worker/internal/daemon/network_provision.go:129-144 | Writes a new definition file, which may be left partial, and never replaces one. |
| HostNetwork.Host.Execute | apps/worker/internal/daemon/executor.go:182-250 | Starts the domain only on an active network of the run; on a working host it provisions everything, however its marker is then written. |
| HostNetwork.Host.StopDomain | apps/worker/internal/daemon/vm_cleanup.go:212-253 | Undefines only a domain that is off. |
| HostNetwork.Host.CleanupNetwork | apps/worker/internal/daemon/network_cleanup.go:241-325 | Removes network, then filter, only on recorded evidence, which nothing foreign has. |
| HostNetwork.Host.RemoveArtifacts | apps/worker/internal/daemon/vm_cleanup.go:330-371 | Removes files only once network, filter and domain are absent. |
| HostNetwork.Host.Advance | apps/worker/internal/daemon/run_store.go:280-301 | Makes only the journal's own steps, cleaned only when nothing is left; an interrupted marker may be left cut short, after which no step succeeds. |
| HostNetwork.Host.RecordRelease | apps/worker/internal/daemon/vm_cleanup.go:423-429 | Records a release only of a cleaned run. |
| HostNetwork.Host.Cleanup | apps/worker/internal/daemon/vm_cleanup.go:373-421 | From any crash point: on success nothing is left and it is recorded; on a working host it succeeds for what the run made if and only if no marker was cut short, and then nothing is touched. |
| HostNetwork.RefusalStrandsNothing | apps/worker/internal/daemon/network_cleanup.go:270-272 | The refusal to clean unrecorded resources never meets what the run made. |
| HostNetwork.EveryCrashPoint | apps/worker/internal/daemon/network_provision.go:65-126 | At every crash point an own network has its own filter, own resources have both exact definitions, a domain has its disks and an own network, and a cleaned run has nothing. |
| HostNetwork.EveryEffect | apps/worker/internal/daemon/vm_cleanup.go:373-421 | In every history the journal never goes back and records cleaned only over an empty host; networks are stopped, then removed, without a domain and on record; domains are removed when off. |
| HostNetwork.FilesGoLast | apps/worker/internal/daemon/vm_cleanup.go:395-420 | In every history, evidence and disks go only after network, filter and domain were gone at one moment. |
| HostNetwork.FilterGoesAfterNetwork | apps/worker/internal/daemon/network_cleanup.go:305-316 | In every history, a filter goes only after its network, with the creation still recorded. |
| HostNetwork.ForeignStays | apps/worker/internal/daemon/network_cleanup.go:211-215 | In every history, a network, filter or domain that the run did not make stays as it is. |
| HostNetwork.TornIsForever | apps/worker/internal/daemon/run_store.go:335-358 | Once a marker was cut short, nothing of the run changes in any continuation. |
| HostNetwork.TornMarkerStrands | apps/worker/internal/daemon/vm_cleanup.go:373-381 | On a host on which everything works but the write of the running marker, execution leaves an active network and a running domain that no number of cleanups removes. |
| HostNetwork.CrashAndRecover | apps/worker/internal/daemon/run_recovery.go:11-35 | Whatever the host answers and however often the worker stops, one later cleanup on a working host removes everything the run made if and only if no marker of the run was ever cut short. |
| WorkerRelease.Tracker.Reserve | apps/worker/internal/daemon/tracker.go:26-39 | Reserves exactly when there is room in every resource. |
| WorkerRelease.Tracker.Release | apps/worker/internal/daemon/tracker.go:41-48 | Gives back, clamped at zero. |
| WorkerRelease.Daemon.Claim | apps/worker/internal/daemon/resources.go:17-28 | Returns a claim exactly when there is room and the API gave one; the reservation is exactly one run for each open claim, and otherwise unchanged. |
| WorkerRelease.Daemon.BindResources | apps/worker/internal/daemon/resources.go:40-48 | Binds a run to its journal once, before any release. |
| WorkerRelease.Daemon.Cleanup | apps/worker/internal/daemon/resources.go:50-68 | Succeeds for a bound open run only with its physical cleanup. |
| WorkerRelease.Daemon.Release | apps/worker/internal/daemon/resources.go:70-100 | Calls the API only after cleanup and never again once acknowledged; frees the local reservation exactly once, last, and by exactly one run, so the clamps never bind. |
| WorkerRelease.SettleExecutionFailure | apps/worker/internal/daemon/daemon.go:123-160 | Asks at most twice, only in states a worker may fail and at the version just read, and releases if and only if the API confirmed the end. |
| ReleaseProtocol.CapacityReturnsOnceAfterCleanup | apps/worker/internal/daemon/resources.go:70-100 | Over any sequence of failures, lost acknowledgements, interrupted writes and restarts, a lease's capacity returns at most once, only for ended work, by reconciliation only for an ended delivery too, and for a run bound to its claim only when its journal reached cleaned. |
| ReleaseProtocol.JournalStands | apps/worker/internal/daemon/run_store.go:280-301 | A journal that cannot be read, or is settled, is changed by no step. |
| ReleaseProtocol.NothingGoesOn | apps/worker/internal/daemon/run_store.go:174-180 | Beside an unreadable journal nothing is recorded, recovered or reconciled and the claim of its run stays open; a quarantined worker neither claims, registers, reconciles nor publishes. |
| ReleaseProtocol.WhenReturnedUncleaned | apps/worker/internal/daemon/resources.go:50-100 | The capacity of a run that is not cleaned can be returned in some continuation if and only if it already is, or the process still holds its active claim unbound. |
| ReleaseRestart.UnboundRunReturnsUncleaned | apps/worker/internal/daemon/run_store.go:222-228 | A reachable state in which a record was written but reported as failed, and its capacity returned at prepared; a restart settles it with one return and serves. |
| ReleaseProtocol.HeartbeatIsSafe | apps/worker/internal/daemon/resources.go:10-15 | Whatever a worker lost in this or an earlier process, the active leases it accounts for are those that left a trace; its heartbeat publishes every reserved run if and only if no lease without a trace is active. |
| ReleaseProtocol.UndisturbedAgrees | apps/api/app/main.py:921-933 | Only a heartbeat sent while open claims and reserved leases differ in number can make the published count differ from what the API holds; claims, returns with their clamp, registration and quarantine never do. |
| ReleaseRestart.RestartRegisters | apps/worker/internal/daemon/run_recovery.go:11-43 | Whatever number of runs a crash left, a restart whose listing succeeds cleans all of them, registers, and keeps what the API holds. |
| ReleaseRestart.RestartSettles | apps/worker/internal/daemon/run_recovery.go:45-81 | From every reachable state with readable journals, a restart settles every run that the reconciliation reaches and whose work and delivery have ended, with its capacity returned exactly once. |
| ReleaseRestart.RestartServes | apps/worker/internal/daemon/run_recovery.go:82-98 | A restart brings the worker back to serving if and only if it is not quarantined, every journal can be read, every unsettled run can be reconciled, and the published count is at most the number of recorded active leases that are given back. |
| ReleaseRestart.AgreedRestartServes | apps/worker/internal/daemon/run_recovery.go:90-98 | Where the published count is what the API holds, that is: every unsettled run can be reconciled and every lease is returned or on record. |
| ReleaseRestart.OverstatedNeverServes | apps/worker/internal/daemon/run_recovery.go:92-97 | A worker that is down with a published count above its active leases serves in no continuation. |
| ReleaseRestart.HeartbeatAfterUnheardRelease | apps/worker/internal/daemon/resources.go:85-98 | A reachable state from which a restart serves, and from which, after one heartbeat, no restart ever does. |
| ReleaseRestart.HeartbeatAfterLostClaim | apps/worker/internal/daemon/resources.go:17-28 | A reachable state from which a restart serves beside an active lease that it has no record of. |
| ReleaseRestart.RestartWaitsForDelivery | apps/api/app/worker_leases.py:71-73 | A released run whose delivery is unfinished keeps a restart from serving until the delivery has ended, and then no longer. |
| ReleaseRestart.TornRunStopsTheWorker | apps/worker/internal/daemon/run_recovery.go:19-22 | A run that cannot be read keeps a restarted worker from serving in every continuation. |
| Retention.RemovedOnlyAfterIntent | apps/api/app/artifact_retention.py:191-201 | In every reachable state, a step removes bytes only after an intent was committed on every alias of their key with exactly their digest and size, and the work is settled. |
| Retention.RemovedOnlyWhenDue | apps/api/app/artifact_retention.py:82-143 | In every reachable state bytes are removed only a whole retention period, in days of 86400 seconds, after the artifact was created under each of its names and its work last changed, for final, released, delivered work of no quarantined worker and beyond any preview or console. |
| Retention.UnprotectedMeansDue | apps/api/app/artifact_retention.py:82-143 | Nothing protects a group exactly when all of these conditions hold. |
| Retention.DueIsRemoved | apps/api/app/artifact_retention.py:165-201 | Content that is due and has its recorded size is removed by an undisturbed expirer, with the intent on record. |
| Retention.UnknownFilesStay | apps/api/app/artifact_retention_files.py:68-77 | Files that no row describes are never removed. |
| Retention.PurgedIsAbsentForever | apps/api/app/artifact_retention_schema.py:3-10 | A purged row satisfies the table's constraint, its file is absent, and both stay so in every continuation. |
| Retention.RowsMeetTheCheck | apps/api/app/artifact_retention_schema.py:3-10 | The table's check constraint, column by column, holds of every row in every reachable state. |
| Retention.HistoryEvolves | apps/api/app/artifact_retention.py:184-189 | An intent is never changed or taken back, nor is its completion. |
| Retention.HistoryKeeps | apps/api/app/artifact_retention.py:165-208 | Under any interleaving of expirers and any crash, the constraint holds, aliases agree, purged content is absent and intended content is the content of the intent. |
| Retention.AbortFrees | apps/api/app/artifact_retention.py:64-74 | An expirer that dies between removal and commit frees its group. |
| Retention.RetryReachesPurged | apps/api/app/artifact_retention.py:165-208 | From every crash point a retry of an unprotected intent ends with the file gone and every alias purged. |
| RetentionStore.Store.LockedGroup | apps/api/app/artifact_retention.py:82-143 | Decides exactly whether nothing protects the group. |
| RetentionStore.Store.InspectFile | apps/api/app/artifact_retention_files.py:24-65 | Content accepted before an intent has the recorded size and is accepted again under the intent with the same digest; content that differs from an intent never is; absence is accepted only after an intent. |
| RetentionStore.Store.RecordIntent | apps/api/app/artifact_retention.py:184-189 | Records the intent on every alias and on nothing else. |
| RetentionStore.Store.RequestExpiration | apps/api/app/artifact_retention.py:173-190 | Commits exactly the specified first transaction; says exactly when a group is protected, already purged, or its content fails the inspection; a dry run changes nothing. |
| RetentionStore.Store.RemoveFile | apps/api/app/artifact_retention.py:193-201 | Performs exactly the specified removal, or gives up. |
| RetentionStore.Store.CommitPurge | apps/api/app/artifact_retention.py:202-207 | Commits exactly the specified completion, never before the expiration. |
| RetentionSweep.PageIsComplete | apps/api/app/artifact_retention_admin.py:21-40 | A page holds every artifact between its cursor and the next one. |
| RetentionSweep.PageMovesOn | apps/api/app/artifact_retention_admin.py:21-40 | A page lies behind its cursor and within its limit, and names a next cursor exactly when something remains. |
| RetentionSweep.RunBatch | apps/api/app/artifact_retention_admin.py:15-40 | Works through exactly the page and counts failures and purges. |
| RetentionSweep.Checkpoint.Save | apps/api/app/artifact_retention_job.py:57-68 | Saves if and only if nobody saved since the checkpoint was loaded. |
| RetentionSweep.SweepCoversEverything | apps/api/app/artifact_retention_job.py:71-83 | With any number of schedulers, failures and lost races, every artifact present between two consecutive sweep completions was in a page whose checkpoint was saved, and was passed to an expiration that did not fail. |
| Snapshot.MakeDirectories | apps/api/app/local_objects.py:10-30 | Creates exactly the missing directories, and fails exactly when a file is in the way. |
| Snapshot.WriteNew | apps/api/app/artifact_backup.py:124-132 | Writes exactly one new file and never replaces anything. |
| Snapshot.Records | apps/api/app/artifact_backup.py:83-108 | Accepts exactly valid, distinct rows whose aliases agree, sorted by identifier. |
| Snapshot.CapturedExactly | apps/api/app/artifact_backup.py:174-181 | A live row finds its file in its size; a purged one finds no name where its file was, in a directory that is there. |
| Snapshot.RowAccepted | apps/api/app/artifact_backup.py:61-106 | Exactly which rows a snapshot takes, with every limit. |
| Snapshot.RowsAccepted | apps/api/app/artifact_backup.py:83-108 | Exactly which sets of rows: at most 10000, distinct, with aliases that agree. |
| Snapshot.SortIsCanonical | apps/api/app/artifact_backup.py:108 | The sorted records do not depend on the order in which they were read. |
| Snapshot.CopyArtifacts | apps/api/app/artifact_backup.py:171-189 | Succeeds exactly when the tree holds what every row says, and stores one blob for each digest. |
| Snapshot.StoredIsHeld | apps/api/app/artifact_backup.py:182-188 | The blobs kept for each digest are right for every row if and only if no two live contents of the rows collide. |
| Snapshot.CreateSnapshot | apps/api/app/artifact_backup.py:163-196 | Succeeds exactly for capturable rows and a new destination; only a complete snapshot has a manifest. |
| SnapshotRestore.CheckedManifest | apps/api/app/artifact_backup.py:208-246 | Accepts exactly the trusted manifest of these rows. |
| SnapshotRestore.ManifestAccepted | apps/api/app/artifact_backup.py:208-246 | Exactly which manifests are accepted; their rows are those of the database as a multiset. |
| SnapshotRestore.EntriesAccepted | apps/api/app/artifact_backup.py:225-243 | Exactly which entries of a manifest are accepted. |
| SnapshotRestore.TamperingIsDetected | apps/api/app/artifact_backup.py:208-267 | A tree that is accepted under the trusted digest, with blobs that verify, has the snapshot's manifest and every live content, unless contents collide. |
| SnapshotRestore.ContentAccepted | apps/api/app/artifact_backup.py:297-315 | What exactly verifies at each entry of a restored root. |
| SnapshotRestore.VerifiedIsExact | apps/api/app/artifact_backup.py:297-323 | Whatever root verifies under the snapshot's digest has every artifact exactly, unless contents collide. |
| SnapshotRestore.VerifyBlobs | apps/api/app/artifact_backup.py:260-266 | Succeeds exactly when every named blob has its size and digest. |
| SnapshotRestore.VerifySnapshot | apps/api/app/artifact_backup.py:256-267 | Succeeds exactly for a matching manifest with intact blobs. |
| SnapshotRestore.VerifyContents | apps/api/app/artifact_backup.py:297-315 | Succeeds exactly when live content is there and purged content is not. |
| SnapshotRestore.RestoreEntries | apps/api/app/artifact_backup.py:276-291 | Succeeds exactly when no restored name is a directory above another, and then holds exactly the live content. |
| SnapshotRestore.RestoreSnapshot | apps/api/app/artifact_backup.py:270-294 | Succeeds exactly for a verified snapshot, such names and a new destination; only a complete root has the marker. |
| SnapshotRestore.VerifyRestored | apps/api/app/artifact_backup.py:318-323 | Succeeds exactly for a root that matches its marker. |
| SnapshotRestore.SnapshotRestores | apps/api/app/artifact_backup.py:163-294 | A created snapshot is accepted for the same rows in any order and without overlapping names; when no contents collide all blobs verify, so its restoration succeeds. |
| SnapshotRestore.RestoredIsExact | apps/api/app/artifact_backup.py:276-293 | When no contents collide, the restored root has every live content byte for byte, nothing with its parents present where content was purged, and no other file but the marker. |
| SnapshotRestore.ExactMeansApart | apps/api/app/artifact_backup.py:182-188 | Conversely, a root that was restored exactly shows that no contents collide. |
| SnapshotRestore.RebackupIsTheSame | apps/api/app/artifact_backup.py:163-196 | The restored root can be backed up again and gives the same manifest. |
| SnapshotRestore.RestoredVerifies | apps/api/app/artifact_backup.py:318-323 | The restored root verifies against the digest of its snapshot. |
| SnapshotRestore.Drill | apps/api/app/artifact_backup.py:163-323 | Creating, restoring, verifying and creating again: whenever the first succeeds, every artifact is restored exactly if and only if no two live contents have the same digest; then the root verifies and its manifest is equal. |
| SnapshotRestore.DrillIsPossible | apps/api/app/artifact_backup.py:163-196 | The drill's assumptions can be met: an environment, and a tree with live, aliased and purged rows over two contents that a snapshot can be taken from. |

## Left out

- Heartbeat and registration writes to capacity columns in the conservation law of `ControlPlaneCapacity`, and the first registration of a worker that was issued a credential before it; `ReleaseProtocol` has what heartbeats do to a restart.
- Every transaction is one atomic step; isolation anomalies of a database that does not serialize on the locked rows are not modelled, except that `LockOrder` has the locks themselves.
- LockOrder.NoCircularWait: the shared key locks that inserting events, audits and leases takes on the rows they refer to are not in the paths.
- HTTP routing, status codes and error messages: a refusal is `None` or `false`, and reasons are not told apart except where the outcome differs.
- Token values, hashing and comparison of credentials and leases: a lease or credential is named by its row.
- Budget minutes, events, metrics, Slack and GitHub calls, preview and console contents (their locks are in `LockOrder`).
- The contents of a branch that exists before a delivery is retried: the source does not compare them.
- Delivery bundles' bytes: `intact` says whether they verify.
- ControlPlane runs over-approximate the choice of queued work; `ControlPlaneStore.Database.ClaimNextWork` has the order.
- Unicode: lower-casing is a parameter of `Redaction`, with the one assumption that it keeps an opening bracket; JSON numbers are opaque.
- Text forms: UUID patterns, prefix and address syntax, JSON and XML are parsed values or codecs; the denied list of a network is the set of its prefixes.
- File modes, symbolic links, inodes, access control lists and the staging names of published files; the check that a snapshot's destination lies outside its source.
- Files that change while a snapshot reads them: the source requires stopped writers.
- A marker file that is damaged after it was completely written.
- Journal.StepIsCrashSafe: a directory entry that is lost although its synchronization was reported is not modelled.
- Version 3 networks in provisioning and cleanup: the logging hook, its receipts and the start intent.
- HostNetwork.Host.Cleanup: the references of foreign domains, networks and bindings are answers of the host, not data, so that a clash is one of the host's refusals.
- HostNetwork.Host.RemoveArtifacts: root disk, seed, metadata and firmware variables are one item, removed before the definitions.
- The route and XML parsers of the host inventory: `HostInventory` starts from parsed prefixes and trees.
- Connection tracking of related ICMP errors; ICMP conversations are tracked by their addresses.
- Guest bootstrap, the Runner and its conversation loop, VM images and command-line arguments.
- ReleaseProtocol.CapacityReturnsOnceAfterCleanup: counts leases of one worker; the amounts are in `ControlPlaneCapacity`.
- ReleaseProtocol.HeartbeatIsSafe: a worker whose configured run size changes between restarts, an API request that is still in flight when the process crashes, and the mock executor, which serves without a journal or recovery, are not modelled; a claim without an answer is in `lost`.
- ReleaseRestart.RestartSettles: the source stops its loop at the first run that cannot be reconciled; `reached` is any part of the loop.
- HostNetwork.ForeignStays: another actor that defines something under the run's identity after provisioning began is not modelled.
- Retention: missing parent directories of a purged file, which the source reports as a storage failure and retries later.
- Metrics, tracing, migrations, identity providers, the web application, the gateway and test fixtures.
