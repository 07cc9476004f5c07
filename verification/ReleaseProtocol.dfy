/**
 The release of a run's capacity between one worker and the API, over lost acknowledgements, interrupted writes,
 crashes and restarts (resources.go, run_recovery.go, daemon.go against worker_leases.py and main.py).

 Leases are numbers. Journals are durable; everything else of the worker is lost in a crash.
 */
module ReleaseProtocol {

  datatype LeaseState = Active | Returned | Withheld

  /** What the API holds: whether the work has ended, and whether no delivery of it is unfinished. */
  datatype Lease = Lease(state: LeaseState, ended: bool, delivered: bool)

  /** The columns of the worker's row, in runs. All leases of a worker have the size of its configuration, so its CPU and memory
      columns move with `active`, clamps included; the disk column is never clamped. */
  datatype Columns = Columns(active: nat, disk: int)

  datatype Phase = Prepared | CleanupPending | Cleaned | Settled

  /** The directory of a run: the phase it reached, whether a file of it was cut short, which makes it unreadable,
      and whether the process bound the run to its claim. */
  datatype Journal = Journal(phase: Phase, torn: bool, bound: bool)

  /** A write is complete, complete but reported as failed, or cut short. */
  datatype Write = Complete | Unreported | CutShort

  datatype CleanupEnd = Confirmed | Unconfirmed | Cut

  /** How far the worker's process has come with a claim. `Closing` is a claim that is released without a bound run. */
  datatype Stage = Claimed | Bound | Closing

  datatype Client = Client(stage: Stage, acknowledged: bool)

  datatype Mode = Down | Recovering | Reconciling | Serving

  /** `clients` are the open claims of the running process; `lost` the leases that left no trace on the worker, because the
      answer to the claim was lost or the process stopped before it recorded the run; `fenced` says that the worker was
      quarantined; `given` counts how often the capacity of a lease was given back. */
  datatype State = State(leases: map<nat, Lease>, journals: map<nat, Journal>, clients: map<nat, Client>, mode: Mode,
                         fenced: bool, published: Columns, lost: set<nat>, given: map<nat, nat>)

  const INITIAL := State(map[], map[], map[], Down, false, Columns(0, 0), {}, map[])

  datatype Action =
    | Start
    | Crash
    | RecoverRun(l: nat, end: CleanupEnd)
    | Register
    | Reconcile(l: nat, acknowledged: bool, w: Write)
    | Serve
    | Claim(l: nat, answered: bool)
    | Record(l: nat, w: Write)
    | Cleanup(l: nat, end: CleanupEnd)
    | Release(l: nat, acknowledged: bool)
    | Finish(l: nat, w: Write)
    | Heartbeat
    | Deliver(l: nat)
    | EndWork(l: nat)
    | EndDelivery(l: nat)
    | Quarantine

  function Rank(phase: Phase): nat {
    match phase
    case Prepared => 0
    case CleanupPending => 1
    case Cleaned => 2
    case Settled => 3
  }

  predicate CleanedUp(s: State, l: nat) {
    l in s.journals && Rank(s.journals[l].phase) >= Rank(Cleaned)
  }

  /** Listing the runs fails when one of them cannot be read. */
  predicate Listable(s: State) {
    forall l :: l in s.journals ==> !s.journals[l].torn
  }

  /** A cleanup confirms the absence of everything, leaves it pending, or is cut short in one of its markers. */
  function CleanJournal(j: Journal, end: CleanupEnd): Journal {
    if j.torn || Rank(j.phase) >= Rank(Cleaned) then j
    else match end
      case Confirmed => j.(phase := Cleaned)
      case Unconfirmed => j.(phase := CleanupPending)
      case Cut => j.(torn := true)
  }

  /** The last marker of a cleaned run. */
  function SettleJournal(j: Journal, w: Write): Journal {
    if j.torn || j.phase == Settled then j else if w.CutShort? then j.(torn := true) else j.(phase := Settled)
  }

  function Count(given: map<nat, nat>, l: nat): nat {
    if l in given then given[l] else 0
  }

  /** return_lease_resources on the worker's columns. */
  function ReturnColumns(c: Columns): Columns {
    Columns(if c.active == 0 then 0 else c.active - 1, c.disk - 1)
  }

  /** A registration takes the disk of an idle worker as it is told. */
  function RegisterColumns(c: Columns): Columns {
    if c.active == 0 then c.(disk := 0) else c
  }

  /** The API gives the capacity of an active lease of ended work back. */
  function GiveBack(s: State, l: nat): State
    requires l in s.leases
  {
    s.(leases := s.leases[l := s.leases[l].(state := Returned)], given := s.given[l := Count(s.given, l) + 1],
       published := ReturnColumns(s.published))
  }

  /** release_run: only an active lease of ended work is accepted. */
  predicate Releasable(s: State, l: nat) {
    l in s.leases && s.leases[l].state == Active && s.leases[l].ended
  }

  /** reconcile_terminal_lease: an already returned lease is acknowledged again; an unfinished delivery refuses both. */
  predicate Reconcilable(s: State, l: nat) {
    l in s.leases && s.leases[l].ended && s.leases[l].delivered && s.leases[l].state != Withheld
  }

  /** A bound run is cleaned up before every release; a claim that was never bound has nothing to clean. */
  predicate MayRelease(s: State, l: nat) {
    l in s.clients && (s.clients[l].stage == Bound ==> CleanedUp(s, l) && !s.journals[l].torn)
  }

  /** The release of a claim: only an acknowledged call moves on. */
  function ReleaseStep(s: State, l: nat, acknowledged: bool): State {
    if !MayRelease(s, l) || s.clients[l].acknowledged then s
    else
      var client := s.clients[l];
      var closing := s.(clients := s.clients[l := client.(stage := if client.stage == Claimed then Closing else client.stage)]);
      if !Releasable(s, l) then closing
      else
        var returned := GiveBack(closing, l);
        if acknowledged then returned.(clients := returned.clients[l := returned.clients[l].(acknowledged := true)]) else returned
  }

  predicate MayReconcile(s: State, l: nat) {
    s.mode == Reconciling && !s.fenced && Listable(s) && l in s.journals && s.journals[l].phase == Cleaned && Reconcilable(s, l)
  }

  function ReconcileStep(s: State, l: nat, acknowledged: bool, w: Write): State {
    if !MayReconcile(s, l) then s
    else
      var settled := if s.leases[l].state == Active then GiveBack(s, l) else s;
      if acknowledged then settled.(journals := settled.journals[l := SettleJournal(settled.journals[l], w)]) else settled
  }

  /** A run is recorded only beside runs that can be read, and bound to its claim when the record was reported. */
  function RecordStep(s: State, l: nat, w: Write): State {
    if l !in s.clients || s.clients[l].stage != Claimed || l in s.journals || !Listable(s) then s
    else s.(journals := s.journals[l := Journal(Prepared, w.CutShort?, w.Complete?)],
            clients := s.clients[l := s.clients[l].(stage := if w.Complete? then Bound else Closing)])
  }

  function FinishStep(s: State, l: nat, w: Write): State {
    if l !in s.clients || !s.clients[l].acknowledged then s
    else if s.clients[l].stage != Bound then s.(clients := s.clients - {l})
    else if l !in s.journals || s.journals[l].torn then s
    else s.(clients := if w.Complete? then s.clients - {l} else s.clients, journals := s.journals[l := SettleJournal(s.journals[l], w)])
  }

  /** Everything was reconciled, and the columns, registered again, are those of an idle worker. */
  predicate MayServe(s: State) {
    && s.mode == Reconciling && Listable(s) && (forall l :: l in s.journals ==> s.journals[l].phase == Settled)
    && RegisterColumns(s.published) == Columns(0, 0)
  }

  /** A claim takes its capacity from the columns; one without an answer leaves only its lease. */
  function ClaimStep(s: State, l: nat, answered: bool): State {
    if s.mode != Serving || s.fenced || l in s.leases then s
    else
      var claimed := s.(leases := s.leases[l := Lease(Active, false, true)],
                        published := Columns(s.published.active + 1, s.published.disk + 1));
      if answered then claimed.(clients := s.clients[l := Client(Claimed, false)]) else claimed.(lost := s.lost + {l})
  }

  /** The open claims that have no journal leave no trace. */
  function Unrecorded(s: State): set<nat> {
    set l | l in s.clients && l !in s.journals
  }

  function Step(s: State, action: Action): State {
    match action
    case Start => if s.mode == Down then s.(mode := Recovering) else s
    case Crash => s.(mode := Down, clients := map[], lost := s.lost + Unrecorded(s))
    case RecoverRun(l, end) =>
      if s.mode == Recovering && Listable(s) && l in s.journals
      then s.(journals := s.journals[l := CleanJournal(s.journals[l], end)]) else s
    case Register =>
      if s.mode == Recovering && !s.fenced && Listable(s) && forall l :: l in s.journals ==> CleanedUp(s, l)
      then s.(mode := Reconciling, published := RegisterColumns(s.published)) else s
    case Reconcile(l, acknowledged, w) => ReconcileStep(s, l, acknowledged, w)
    case Serve => if MayServe(s) then s.(mode := Serving, published := Columns(0, 0)) else s
    case Claim(l, answered) => ClaimStep(s, l, answered)
    case Record(l, w) => RecordStep(s, l, w)
    case Cleanup(l, end) =>
      if l in s.clients && s.clients[l].stage == Bound && l in s.journals
      then s.(journals := s.journals[l := CleanJournal(s.journals[l], end)]) else s
    case Release(l, acknowledged) => ReleaseStep(s, l, acknowledged)
    case Finish(l, w) => FinishStep(s, l, w)
    case Heartbeat =>
      if s.mode == Serving && !s.fenced then s.(published := Columns(|s.clients|, |s.clients|)) else s
    case Deliver(l) =>
      if l in s.leases && s.leases[l].state == Active && !s.leases[l].ended
      then s.(leases := s.leases[l := s.leases[l].(delivered := false)]) else s
    case EndWork(l) => if l in s.leases then s.(leases := s.leases[l := s.leases[l].(ended := true)]) else s
    case EndDelivery(l) => if l in s.leases then s.(leases := s.leases[l := s.leases[l].(delivered := true)]) else s
    case Quarantine =>
      s.(fenced := true,
         leases := map l | l in s.leases :: if s.leases[l].state == Active then s.leases[l].(state := Withheld, ended := true) else s.leases[l])
  }

  function Run(s: State, actions: seq<Action>): State
    decreases actions
  {
    if actions == [] then s else Run(Step(s, actions[0]), actions[1..])
  }

  lemma {:induction false} RunAppends(s: State, first: seq<Action>, second: seq<Action>)
    ensures Run(s, first + second) == Run(Run(s, first), second)
    decreases first
  {
    if first == [] {
      assert first + second == second;
    } else {
      assert (first + second)[1..] == first[1..] + second;
      RunAppends(Step(s, first[0]), first[1..], second);
    }
  }

  lemma RunOne(s: State, action: Action)
    ensures Run(s, [action]) == Step(s, action)
  {
    assert [action][1..] == [];
  }

  lemma RunTwo(s: State, first: Action, second: Action)
    ensures Run(s, [first, second]) == Step(Step(s, first), second)
  {
    assert [first, second][1..] == [second];
    RunOne(Step(s, first), second);
  }

  /* ---------- what every run keeps ---------- */

  /** Capacity was given back exactly once for a returned lease, and never for another; only ended work gives it back. */
  ghost predicate CountsOk(leases: map<nat, Lease>, given: map<nat, nat>) {
    && (forall l :: l in leases ==> Count(given, l) == if leases[l].state == Returned then 1 else 0)
    && (forall l :: l in leases && leases[l].state == Returned ==> leases[l].ended)
    && (forall l :: l in given ==> l in leases)
  }

  /** The capacity of a bound run is given back only after its journal reached cleaned. */
  ghost predicate JournalsOk(leases: map<nat, Lease>, journals: map<nat, Journal>) {
    forall l :: l in journals ==>
                  l in leases && (leases[l].state == Returned && journals[l].bound ==> Rank(journals[l].phase) >= Rank(Cleaned))
                  && (journals[l].phase == Settled ==> leases[l].state == Returned)
  }

  ghost predicate ClientOk(client: Client, lease: Lease, journaled: bool, journal: Journal) {
    && (client.stage == Bound ==> journaled && journal.bound)
    && (client.stage == Claimed ==> !journaled && lease.state != Returned)
    && (client.stage == Closing && journaled ==> !journal.bound && journal.phase == Prepared)
    && (client.acknowledged ==>
          lease.state == Returned && (client.stage == Bound ==> Rank(journal.phase) >= Rank(Cleaned)))
  }

  function JournalOf(journals: map<nat, Journal>, l: nat): Journal {
    if l in journals then journals[l] else Journal(Prepared, false, false)
  }

  ghost predicate ClientsOk(leases: map<nat, Lease>, journals: map<nat, Journal>, clients: map<nat, Client>) {
    forall l :: l in clients ==> l in leases && ClientOk(clients[l], leases[l], l in journals, JournalOf(journals, l))
  }

  /** Only a serving process has claims; an active lease is one of its claims or left no trace. */
  ghost predicate AccountsOk(leases: map<nat, Lease>, clients: map<nat, Client>, mode: Mode, lost: set<nat>) {
    && (mode != Serving ==> clients == map[])
    && (mode == Serving ==> forall l :: l in leases && leases[l].state == Active ==> l in clients || l in lost)
  }

  /** Every lease that is not returned is an open claim or on record, or left no trace; withheld leases are those of a quarantined worker. */
  ghost predicate TracesOk(leases: map<nat, Lease>, journals: map<nat, Journal>, clients: map<nat, Client>, fenced: bool, lost: set<nat>) {
    && (forall l :: l in leases && leases[l].state != Returned ==> l in clients || l in journals || l in lost)
    && (forall l :: l in lost ==> l in leases && l !in clients && l !in journals)
    && (forall l :: l in leases && leases[l].state == Withheld ==> fenced)
  }

  ghost predicate Inv(s: State) {
    && CountsOk(s.leases, s.given) && JournalsOk(s.leases, s.journals) && ClientsOk(s.leases, s.journals, s.clients)
    && AccountsOk(s.leases, s.clients, s.mode, s.lost) && TracesOk(s.leases, s.journals, s.clients, s.fenced, s.lost)
  }

  lemma RecoveryKeeps(s: State, action: Action)
    requires Inv(s) && (action.Start? || action.Crash? || action.RecoverRun? || action.Register? || action.Serve?)
    ensures Inv(Step(s, action))
  {
  }

  lemma GivingBackKeeps(s: State, l: nat)
    requires Inv(s) && Releasable(s, l) && (l in s.journals && s.journals[l].bound ==> CleanedUp(s, l))
    requires l in s.clients ==> s.clients[l].stage != Claimed
    ensures Inv(GiveBack(s, l))
  {
  }

  /** A journal that moves on, or is cut short, on its way. */
  lemma JournalMoves(s: State, l: nat, j: Journal)
    requires Inv(s) && l in s.journals && j.bound == s.journals[l].bound && Rank(s.journals[l].phase) <= Rank(j.phase)
    requires j.phase == Settled ==> s.leases[l].state == Returned
    requires l in s.clients ==> s.clients[l].stage == Bound
    ensures Inv(s.(journals := s.journals[l := j]))
  {
  }

  lemma ReconcileKeeps(s: State, l: nat, acknowledged: bool, w: Write)
    requires Inv(s)
    ensures Inv(ReconcileStep(s, l, acknowledged, w))
  {
    if MayReconcile(s, l) {
      var settled := if s.leases[l].state == Active then GiveBack(s, l) else s;
      if s.leases[l].state == Active {
        GivingBackKeeps(s, l);
      }
      JournalMoves(settled, l, SettleJournal(settled.journals[l], w));
    }
  }

  lemma AnsweredClaimKeeps(s: State, l: nat)
    requires Inv(s)
    ensures Inv(ClaimStep(s, l, true))
  {
  }

  lemma LostClaimKeeps(s: State, l: nat)
    requires Inv(s)
    ensures Inv(ClaimStep(s, l, false))
  {
  }

  lemma NewJournalKeeps(leases: map<nat, Lease>, journals: map<nat, Journal>, l: nat, j: Journal)
    requires JournalsOk(leases, journals) && l in leases && leases[l].state != Returned && j.phase == Prepared
    ensures JournalsOk(leases, journals[l := j])
  {
  }

  lemma NewJournalOfClient(s: State, l: nat, j: Journal, client: Client)
    requires ClientsOk(s.leases, s.journals, s.clients) && l in s.clients && ClientOk(client, s.leases[l], true, j)
    ensures ClientsOk(s.leases, s.journals[l := j], s.clients[l := client])
  {
  }

  lemma RecordKeeps(s: State, l: nat, w: Write)
    requires Inv(s)
    ensures Inv(RecordStep(s, l, w))
  {
    if l in s.clients && s.clients[l].stage == Claimed && l !in s.journals && Listable(s) {
      assert ClientOk(s.clients[l], s.leases[l], false, JournalOf(s.journals, l));
      var j := Journal(Prepared, w.CutShort?, w.Complete?);
      NewJournalKeeps(s.leases, s.journals, l, j);
      NewJournalOfClient(s, l, j, s.clients[l].(stage := if w.Complete? then Bound else Closing));
    }
  }

  lemma CleanupKeeps(s: State, l: nat, end: CleanupEnd)
    requires Inv(s)
    ensures Inv(Step(s, Cleanup(l, end)))
  {
    if l in s.clients && s.clients[l].stage == Bound && l in s.journals {
      JournalMoves(s, l, CleanJournal(s.journals[l], end));
    }
  }

  lemma ClosingKeeps(s: State, l: nat, client: Client)
    requires Inv(s) && l in s.clients && ClientOk(client, s.leases[l], l in s.journals, JournalOf(s.journals, l))
    ensures Inv(s.(clients := s.clients[l := client]))
  {
  }

  lemma ReleaseKeeps(s: State, l: nat, acknowledged: bool)
    requires Inv(s)
    ensures Inv(ReleaseStep(s, l, acknowledged))
  {
    if MayRelease(s, l) && !s.clients[l].acknowledged {
      var left := s.clients[l].(stage := if s.clients[l].stage == Claimed then Closing else s.clients[l].stage);
      var closing := s.(clients := s.clients[l := left]);
      ClosingKeeps(s, l, left);
      if Releasable(s, l) {
        GivingBackKeeps(closing, l);
        ClosingKeeps(GiveBack(closing, l), l, left.(acknowledged := true));
      }
    }
  }

  lemma ForgettingKeeps(s: State, l: nat)
    requires Inv(s) && l in s.clients && s.clients[l].acknowledged
    ensures Inv(s.(clients := s.clients - {l}))
  {
  }

  lemma FinishKeeps(s: State, l: nat, w: Write)
    requires Inv(s)
    ensures Inv(FinishStep(s, l, w))
  {
    if l in s.clients && s.clients[l].acknowledged {
      ForgettingKeeps(s, l);
      if s.clients[l].stage == Bound {
        var moved := s.(journals := s.journals[l := SettleJournal(s.journals[l], w)]);
        JournalMoves(s, l, SettleJournal(s.journals[l], w));
        ForgettingKeeps(moved, l);
      }
    }
  }

  /** The work or the delivery of a lease moves on. */
  predicate Moves(a: Lease, b: Lease) {
    b.state == a.state && (a.ended ==> b.ended)
  }

  lemma MovesKeepCounts(leases: map<nat, Lease>, given: map<nat, nat>, journals: map<nat, Journal>, l: nat, lease: Lease)
    requires CountsOk(leases, given) && JournalsOk(leases, journals) && l in leases && Moves(leases[l], lease)
    ensures CountsOk(leases[l := lease], given) && JournalsOk(leases[l := lease], journals)
  {
  }

  lemma MovesKeepClients(s: State, l: nat, lease: Lease)
    requires ClientsOk(s.leases, s.journals, s.clients) && AccountsOk(s.leases, s.clients, s.mode, s.lost)
    requires TracesOk(s.leases, s.journals, s.clients, s.fenced, s.lost) && l in s.leases && Moves(s.leases[l], lease)
    ensures ClientsOk(s.leases[l := lease], s.journals, s.clients) && AccountsOk(s.leases[l := lease], s.clients, s.mode, s.lost)
    ensures TracesOk(s.leases[l := lease], s.journals, s.clients, s.fenced, s.lost)
  {
  }

  lemma LeaseMoves(s: State, l: nat, lease: Lease)
    requires Inv(s) && l in s.leases && Moves(s.leases[l], lease)
    ensures Inv(s.(leases := s.leases[l := lease]))
  {
    MovesKeepCounts(s.leases, s.given, s.journals, l, lease);
    MovesKeepClients(s, l, lease);
  }

  lemma EndingKeeps(s: State, action: Action)
    requires Inv(s) && (action.Heartbeat? || action.Deliver? || action.EndWork? || action.EndDelivery?)
    ensures Inv(Step(s, action))
  {
    match action
    case Deliver(l) => if l in s.leases { LeaseMoves(s, l, s.leases[l].(delivered := false)); }
    case EndWork(l) => if l in s.leases { LeaseMoves(s, l, s.leases[l].(ended := true)); }
    case EndDelivery(l) => if l in s.leases { LeaseMoves(s, l, s.leases[l].(delivered := true)); }
    case _ =>
  }

  lemma QuarantineKeeps(s: State)
    requires Inv(s)
    ensures Inv(Step(s, Quarantine))
  {
  }

  lemma StepKeeps(s: State, action: Action)
    requires Inv(s)
    ensures Inv(Step(s, action))
  {
    match action
    case Reconcile(l, acknowledged, w) => ReconcileKeeps(s, l, acknowledged, w);
    case Release(l, acknowledged) => ReleaseKeeps(s, l, acknowledged);
    case Claim(l, answered) => if answered { AnsweredClaimKeeps(s, l); } else { LostClaimKeeps(s, l); }
    case Record(l, w) => RecordKeeps(s, l, w);
    case Cleanup(l, end) => CleanupKeeps(s, l, end);
    case Finish(l, w) => FinishKeeps(s, l, w);
    case Start => RecoveryKeeps(s, action);
    case Crash => RecoveryKeeps(s, action);
    case RecoverRun(_, _) => RecoveryKeeps(s, action);
    case Register => RecoveryKeeps(s, action);
    case Serve => RecoveryKeeps(s, action);
    case Quarantine => QuarantineKeeps(s);
    case _ => EndingKeeps(s, action);
  }

  lemma {:induction false} RunKeeps(s: State, actions: seq<Action>)
    requires Inv(s)
    ensures Inv(Run(s, actions))
    decreases actions
  {
    if actions != [] {
      StepKeeps(s, actions[0]);
      RunKeeps(Step(s, actions[0]), actions[1..]);
    }
  }

  ghost predicate Reachable(s: State) {
    exists actions :: Run(INITIAL, actions) == s
  }

  lemma ReachableIsSound(s: State)
    requires Reachable(s)
    ensures Inv(s)
  {
    var actions :| Run(INITIAL, actions) == s;
    RunKeeps(INITIAL, actions);
  }

  /* ---------- what every run promises ---------- */

  /** This step gives the capacity of the lease back. */
  predicate GivesBack(s: State, action: Action, l: nat) {
    Count(Step(s, action).given, l) != Count(s.given, l)
  }

  lemma ReleaseGivesBack(s: State, k: nat, acknowledged: bool, l: nat)
    requires Inv(s)
    ensures GivesBack(s, Release(k, acknowledged), l) <==> k == l && Releasable(s, l) && MayRelease(s, l)
  {
  }

  lemma ReconcileGivesBack(s: State, k: nat, acknowledged: bool, w: Write, l: nat)
    ensures GivesBack(s, Reconcile(k, acknowledged, w), l) <==> k == l && Releasable(s, l) && MayReconcile(s, l)
  {
  }

  /** A journal that cannot be read, or is settled, stays as it is. */
  lemma JournalStands(s: State, action: Action, l: nat)
    requires l in s.journals && (s.journals[l].torn || s.journals[l].phase == Settled)
    ensures l in Step(s, action).journals && Step(s, action).journals[l] == s.journals[l]
  {
  }

  /** Beside a journal that cannot be read no run is recorded, recovered or reconciled, and the claim of its run stays open while
      the process lives; a quarantined worker neither claims, registers nor reconciles. */
  lemma NothingGoesOn(s: State, action: Action)
    ensures !Listable(s) ==> Step(s, action).journals.Keys == s.journals.Keys
    ensures !Listable(s) && (action.RecoverRun? || action.Register? || action.Reconcile?) ==> Step(s, action) == s
    ensures forall l :: l in s.clients && s.clients[l].stage == Bound && l in s.journals && s.journals[l].torn && !action.Crash? ==>
                          l in Step(s, action).clients
    ensures s.fenced && (action.Claim? || action.Register? || action.Reconcile? || action.Heartbeat?) ==> Step(s, action) == s
  {
  }

  /** Only the release of a claim and the reconciliation of a journal give capacity back. */
  lemma OnlyTwoGiveBack(s: State, action: Action, l: nat)
    requires !action.Release? && !action.Reconcile?
    ensures !GivesBack(s, action, l)
  {
  }

  /** The capacity is gone although the journal is not cleaned. */
  predicate ReturnedUncleaned(s: State, l: nat) {
    l in s.journals && !CleanedUp(s, l) && l in s.leases && s.leases[l].state == Returned
  }

  /** Over any sequence of failures, lost acknowledgements, interrupted writes and restarts, the capacity of a lease is given
      back at most once, for ended work, when a reconciliation gives it back also for an ended delivery, and, for a run that
      was bound to its claim, only when its physical cleanup is on record. */
  lemma CapacityReturnsOnceAfterCleanup(s: State, action: Action, l: nat)
    requires Reachable(s)
    ensures Count(s.given, l) <= 1
    ensures GivesBack(s, action, l) ==>
              Count(s.given, l) == 0 && Releasable(s, l)
              && (l in s.journals && s.journals[l].bound ==> CleanedUp(s, l) && !s.journals[l].torn)
              && (action.Release? || s.leases[l].delivered)
    ensures ReturnedUncleaned(s, l) ==> !s.journals[l].bound
  {
    ReachableIsSound(s);
    match action
    case Release(k, acknowledged) =>
      ReleaseGivesBack(s, k, acknowledged, l);
      assert l in s.clients ==> ClientOk(s.clients[l], s.leases[l], l in s.journals, JournalOf(s.journals, l));
    case Reconcile(k, acknowledged, w) => ReconcileGivesBack(s, k, acknowledged, w, l);
    case _ => OnlyTwoGiveBack(s, action, l);
  }

  /** Some continuation gives the capacity back before the journal is cleaned. */
  ghost predicate CanReturnUncleaned(s: State, l: nat) {
    exists actions :: ReturnedUncleaned(Run(s, actions), l)
  }

  /** Nothing but a cleanup can come before the return. */
  predicate CleanupFirst(s: State, l: nat) {
    && l in s.journals && l in s.leases
    && (CleanedUp(s, l) || (s.leases[l].state != Returned && (s.leases[l].state == Withheld || l !in s.clients || s.journals[l].bound)))
  }

  lemma ReleaseComesAfterCleanup(s: State, k: nat, acknowledged: bool, l: nat)
    requires Inv(s) && CleanupFirst(s, l)
    ensures CleanupFirst(ReleaseStep(s, k, acknowledged), l)
  {
    assert k in s.clients ==> ClientOk(s.clients[k], s.leases[k], k in s.journals, JournalOf(s.journals, k));
  }

  lemma JournalsComeAfterCleanup(s: State, action: Action, l: nat)
    requires CleanupFirst(s, l) && (action.Reconcile? || action.Finish? || action.Record? || action.Cleanup? || action.RecoverRun?)
    ensures CleanupFirst(Step(s, action), l)
  {
  }

  lemma LeasesComeAfterCleanup(s: State, action: Action, l: nat)
    requires CleanupFirst(s, l) && (action.Deliver? || action.EndWork? || action.EndDelivery? || action.Quarantine?)
    ensures CleanupFirst(Step(s, action), l)
  {
  }

  lemma ModesComeAfterCleanup(s: State, action: Action, l: nat)
    requires CleanupFirst(s, l)
    requires action.Start? || action.Crash? || action.Register? || action.Serve? || action.Claim? || action.Heartbeat?
    ensures CleanupFirst(Step(s, action), l)
  {
  }

  lemma CleanupStaysFirst(s: State, action: Action, l: nat)
    requires Inv(s) && CleanupFirst(s, l)
    ensures CleanupFirst(Step(s, action), l)
  {
    match action
    case Release(k, acknowledged) => ReleaseComesAfterCleanup(s, k, acknowledged, l);
    case Reconcile(_, _, _) => JournalsComeAfterCleanup(s, action, l);
    case Finish(_, _) => JournalsComeAfterCleanup(s, action, l);
    case Record(_, _) => JournalsComeAfterCleanup(s, action, l);
    case Cleanup(_, _) => JournalsComeAfterCleanup(s, action, l);
    case RecoverRun(_, _) => JournalsComeAfterCleanup(s, action, l);
    case Deliver(_) => LeasesComeAfterCleanup(s, action, l);
    case EndWork(_) => LeasesComeAfterCleanup(s, action, l);
    case EndDelivery(_) => LeasesComeAfterCleanup(s, action, l);
    case Quarantine => LeasesComeAfterCleanup(s, action, l);
    case _ => ModesComeAfterCleanup(s, action, l);
  }

  lemma {:induction false} CleanupFirstForever(s: State, actions: seq<Action>, l: nat)
    requires Inv(s) && CleanupFirst(s, l)
    ensures CleanupFirst(Run(s, actions), l)
    decreases actions
  {
    if actions != [] {
      StepKeeps(s, actions[0]);
      CleanupStaysFirst(s, actions[0], l);
      CleanupFirstForever(Step(s, actions[0]), actions[1..], l);
    }
  }

  /** The process holds a claim that it can release without any cleanup. */
  predicate ReleasableUnbound(s: State, l: nat) {
    l in s.journals && !s.journals[l].bound && l in s.clients && l in s.leases && s.leases[l].state == Active
  }

  lemma UnboundReleases(s: State, l: nat)
    requires Inv(s) && !CleanedUp(s, l) && ReleasableUnbound(s, l)
    ensures ReturnedUncleaned(Step(Step(s, EndWork(l)), Release(l, true)), l)
  {
    assert ClientOk(s.clients[l], s.leases[l], true, JournalOf(s.journals, l));
    var ended := Step(s, EndWork(l));
    assert MayRelease(ended, l) && !ended.clients[l].acknowledged && Releasable(ended, l);
  }

  lemma UnboundReturns(s: State, l: nat)
    requires Inv(s) && !CleanedUp(s, l) && ReleasableUnbound(s, l)
    ensures CanReturnUncleaned(s, l)
  {
    UnboundReleases(s, l);
    RunTwo(s, EndWork(l), Release(l, true));
  }

  /** Exactly when the capacity of a run that is not cleaned may be gone: it is gone, or the process that made the journal
      still holds the claim, unbound because the record was reported as failed. */
  lemma WhenReturnedUncleaned(s: State, l: nat)
    requires Reachable(s) && l in s.journals && !CleanedUp(s, l)
    ensures CanReturnUncleaned(s, l) <==> ReturnedUncleaned(s, l) || ReleasableUnbound(s, l)
  {
    ReachableIsSound(s);
    if ReturnedUncleaned(s, l) {
      assert ReturnedUncleaned(Run(s, []), l);
    } else if ReleasableUnbound(s, l) {
      UnboundReturns(s, l);
    } else if CanReturnUncleaned(s, l) {
      var actions :| ReturnedUncleaned(Run(s, actions), l);
      CleanupFirstForever(s, actions, l);
    }
  }

  /* ---------- what the worker publishes ---------- */

  function ActiveLeases(leases: map<nat, Lease>): set<nat> {
    set l | l in leases && leases[l].state == Active
  }

  /** In a serving worker, whatever it lost in this or an earlier process: the active leases that it accounts for are those that
      left a trace. So its heartbeat publishes every reserved run exactly unless a lease without a trace is still active. */
  lemma HeartbeatIsSafe(s: State)
    requires Reachable(s) && s.mode == Serving
    ensures forall l :: l in ActiveLeases(s.leases) ==> (l in s.clients && !s.clients[l].acknowledged <==> l !in s.lost)
    ensures ActiveLeases(s.leases) <= s.clients.Keys <==> s.lost !! ActiveLeases(s.leases)
    ensures !s.fenced && s.lost !! ActiveLeases(s.leases) ==> |ActiveLeases(s.leases)| <= Step(s, Heartbeat).published.active
  {
    ReachableIsSound(s);
    if s.lost !! ActiveLeases(s.leases) {
      assert ActiveLeases(s.leases) <= s.clients.Keys;
      SubsetIsSmaller(ActiveLeases(s.leases), s.clients.Keys);
      assert |s.clients| == |s.clients.Keys|;
    }
  }

  lemma {:induction false} SubsetIsSmaller(a: set<nat>, b: set<nat>)
    requires a <= b
    ensures |a| <= |b|
    ensures |a| == |b| ==> a == b
    decreases a
  {
    if a != {} {
      var x :| x in a;
      SubsetIsSmaller(a - {x}, b - {x});
      if |a| == |b| {
        assert a == (a - {x}) + {x} && b == (b - {x}) + {x};
      }
    } else if |b| == 0 {
      assert b == {};
    }
  }

  /** The leases that the API still holds capacity for. */
  function Reserved(leases: map<nat, Lease>): set<nat> {
    set l | l in leases && leases[l].state != Returned
  }

  /** The published count is the number of runs that the API holds capacity for. */
  predicate Agreed(s: State) {
    s.published.active == |Reserved(s.leases)|
  }

  /** No heartbeat of the run is sent while the open claims are not as many as the reserved leases. */
  predicate Undisturbed(s: State, actions: seq<Action>)
    decreases actions
  {
    actions == []
    || ((actions[0] == Heartbeat && s.mode == Serving && !s.fenced ==> |s.clients| == |Reserved(s.leases)|) && Undisturbed(Step(s, actions[0]), actions[1..]))
  }

  lemma GivingBackAgrees(s: State, l: nat)
    requires Agreed(s) && l in s.leases && s.leases[l].state == Active
    ensures Agreed(GiveBack(s, l))
  {
    assert l in Reserved(s.leases);
    assert Reserved(GiveBack(s, l).leases) == Reserved(s.leases) - {l};
  }

  lemma ServingAgrees(s: State)
    requires Agreed(s)
    ensures Agreed(Step(s, Serve))
  {
  }

  lemma ClaimAgrees(s: State, l: nat, answered: bool)
    requires Agreed(s)
    ensures Agreed(ClaimStep(s, l, answered))
  {
    if s.mode == Serving && !s.fenced && l !in s.leases {
      assert Reserved(ClaimStep(s, l, answered).leases) == Reserved(s.leases) + {l};
    }
  }

  /** Steps that neither claim nor give back leave the same leases reserved. */
  lemma SameReserved(s: State, action: Action)
    requires !action.Claim? && !action.Release? && !action.Reconcile?
    ensures Reserved(Step(s, action).leases) == Reserved(s.leases)
  {
  }

  lemma StepAgrees(s: State, action: Action)
    requires Agreed(s) && (action == Heartbeat && s.mode == Serving && !s.fenced ==> |s.clients| == |Reserved(s.leases)|)
    ensures Agreed(Step(s, action))
  {
    match action
    case Claim(l, answered) => ClaimAgrees(s, l, answered);
    case Release(l, acknowledged) =>
      if MayRelease(s, l) && !s.clients[l].acknowledged && Releasable(s, l) {
        GivingBackAgrees(s, l);
        assert Step(s, action).leases == GiveBack(s, l).leases && Step(s, action).published == GiveBack(s, l).published;
      }
    case Reconcile(l, acknowledged, w) =>
      if MayReconcile(s, l) && s.leases[l].state == Active {
        GivingBackAgrees(s, l);
        assert Step(s, action).leases == GiveBack(s, l).leases && Step(s, action).published == GiveBack(s, l).published;
      }
    case Serve => ServingAgrees(s);
    case _ => SameReserved(s, action);
  }

  /** Only a heartbeat can make the published count differ from what the API holds. */
  lemma {:induction false} UndisturbedAgrees(s: State, actions: seq<Action>)
    requires Agreed(s) && Undisturbed(s, actions)
    ensures Agreed(Run(s, actions))
    decreases actions
  {
    if actions != [] {
      StepAgrees(s, actions[0]);
      UndisturbedAgrees(Step(s, actions[0]), actions[1..]);
    }
  }
}
