/**
 The states of a work item and who may move it between them (state_machine.py,
 worker_transitions.py).
 */
module StateMachine {

  datatype Status =
    | Queued | Provisioning | Analyzing | Implementing | Verifying
    | AwaitingFeedback | AwaitingApproval | AwaitingInput | BudgetExhausted
    | Committing | PrCreated | Completed | Failed | Cancelled

  /** ALLOWED_TRANSITIONS */
  function Allowed(status: Status): set<Status> {
    match status
    case Queued => {Provisioning, Cancelled}
    case Provisioning => {Analyzing, Failed, Cancelled}
    case Analyzing => {Implementing, AwaitingInput, BudgetExhausted, Failed, Cancelled}
    case Implementing => {Verifying, AwaitingInput, BudgetExhausted, Failed, Cancelled}
    case Verifying => {Implementing, AwaitingFeedback, AwaitingApproval, BudgetExhausted, Failed, Cancelled}
    case AwaitingFeedback => {Implementing, AwaitingApproval, Cancelled}
    case AwaitingApproval => {Implementing, Committing, Cancelled}
    case AwaitingInput => {Implementing, Cancelled}
    case BudgetExhausted => {Implementing, Cancelled}
    case Committing => {PrCreated, Failed}
    case PrCreated => {Completed, Failed}
    case Completed => {}
    case Failed => {Queued, Cancelled}
    case Cancelled => {}
  }

  /** WORKER_TRANSITIONS: what a lease may ask for at all. */
  function WorkerAllowed(status: Status): set<Status> {
    match status
    case Provisioning => {Analyzing, Failed, Cancelled}
    case Analyzing => {Implementing, AwaitingInput, BudgetExhausted, Failed, Cancelled}
    case Implementing => {Verifying, AwaitingInput, BudgetExhausted, Failed, Cancelled}
    case Verifying => {Implementing, AwaitingFeedback, AwaitingApproval, BudgetExhausted, Failed, Cancelled}
    case AwaitingFeedback => {AwaitingApproval, Cancelled}
    case AwaitingApproval => {Cancelled}
    case AwaitingInput => {Cancelled}
    case BudgetExhausted => {Cancelled}
    case Committing => {PrCreated, Failed}
    case PrCreated => {Completed, Failed}
    case Queued => {}
    case Completed => {}
    case Failed => {}
    case Cancelled => {}
  }

  predicate Terminal(status: Status) {
    status == Completed || status == Failed || status == Cancelled
  }

  /** States that only an approval leads to. */
  predicate Approved(status: Status) {
    status == Committing || status == PrCreated || status == Completed
  }

  /** The states in which feedback may be given. */
  predicate FeedbackAllowed(status: Status) {
    !Approved(status) && !Terminal(status)
  }

  predicate ResumedByFeedback(status: Status) {
    status == AwaitingFeedback || status == AwaitingApproval || status == AwaitingInput
  }

  /** Where quarantine sends unfinished work. */
  function QuarantineTarget(status: Status): Status {
    if status == Committing || status == PrCreated then Failed else Cancelled
  }

  /** A worker's edges are edges of the platform, and none of them starts work over, approves it or resumes it for a person. */
  lemma WorkerIsNarrower(status: Status, target: Status)
    requires target in WorkerAllowed(status)
    ensures target in Allowed(status)
    ensures target != Queued && target != Provisioning && target != Committing && !Terminal(status)
    ensures target == Implementing ==> status == Analyzing || status == Verifying
    ensures target == PrCreated <==> status == Committing && target != Failed
    ensures target == Completed <==> status == PrCreated && target != Failed
  {
  }

  /** Quarantine never asks for an edge the platform does not have, and ends every unfinished work. */
  lemma QuarantineIsTotal(status: Status)
    ensures !Terminal(status) ==> QuarantineTarget(status) in Allowed(status)
    ensures status in {Committing, PrCreated} ==> QuarantineTarget(status) == Failed
    ensures status !in {Committing, PrCreated} ==> QuarantineTarget(status) == Cancelled
    ensures Terminal(QuarantineTarget(status))
  {
  }

  /** The only edges out of a terminal state lead out of FAILED. */
  lemma OnlyFailedIsLeft(status: Status, target: Status)
    requires Terminal(status) && target in Allowed(status)
    ensures status == Failed && (target == Queued || target == Cancelled)
  {
  }

  /** The platform's table read by target: where each status can be entered from. */
  lemma EnteredFrom(status: Status)
    ensures Provisioning in Allowed(status) <==> status == Queued
    ensures Analyzing in Allowed(status) <==> status == Provisioning
    ensures Implementing in Allowed(status) <==>
              status in {Analyzing, Verifying, AwaitingFeedback, AwaitingApproval, AwaitingInput, BudgetExhausted}
    ensures Verifying in Allowed(status) <==> status == Implementing
    ensures AwaitingFeedback in Allowed(status) <==> status == Verifying
    ensures AwaitingApproval in Allowed(status) <==> status in {Verifying, AwaitingFeedback}
    ensures AwaitingInput in Allowed(status) <==> status in {Analyzing, Implementing}
    ensures BudgetExhausted in Allowed(status) <==> status in {Analyzing, Implementing, Verifying}
    ensures Committing in Allowed(status) <==> status == AwaitingApproval
    ensures PrCreated in Allowed(status) <==> status == Committing
    ensures Completed in Allowed(status) <==> status == PrCreated
    ensures Failed in Allowed(status) <==> status in {Provisioning, Analyzing, Implementing, Verifying, Committing, PrCreated}
    ensures Cancelled in Allowed(status) <==> status !in {Committing, PrCreated, Completed, Cancelled}
    ensures Queued in Allowed(status) <==> status == Failed
  {
  }

  /** A worker's edges are the platform's but for those of people and of the queue: it neither starts, approves nor resumes
      work, nor leaves work that has ended. */
  lemma WorkersShare(status: Status, target: Status)
    ensures target in WorkerAllowed(status) <==>
              && target in Allowed(status) && status !in {Queued, Failed} && target != Committing
              && (target == Implementing ==> status in {Analyzing, Verifying})
  {
  }
}
