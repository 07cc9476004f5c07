/**
 The row locks of the control plane's transactions, in the order each takes them, and why no set of them
 can wait in a circle (delivery.py, service.py, worker_quarantine.py, worker_leases.py, worker_credentials.py,
 artifact_retention.py, main.py). Rows of a table are numbered in the order of their identifiers.
 */
module LockOrder {

  datatype Detail = Job | Preview | Console

  datatype Lock =
    | Worker(id: nat)
    | Credential(id: nat)
    | Lease(id: nat)
    | Work(id: nat)
    | Of(work: nat, detail: Detail)
    | Artifact(id: nat)

  function Table(lock: Lock): nat {
    match lock
    case Worker(_) => 0
    case Credential(_) => 1
    case Lease(_) => 2
    case Work(_) => 3
    case Of(_, _) => 4
    case Artifact(_) => 5
  }

  function Row(lock: Lock): nat {
    if lock.Of? then lock.work else lock.id
  }

  function Part(lock: Lock): nat {
    if lock.Of? then (match lock.detail case Job => 0 case Preview => 1 case Console => 2) else 0
  }

  /** By table, then by row, then by what of the row's work is locked. */
  predicate Before(a: Lock, b: Lock) {
    Table(a) < Table(b) || (Table(a) == Table(b) && (Row(a) < Row(b) || (Row(a) == Row(b) && Part(a) < Part(b))))
  }

  lemma BeforeIsStrict(a: Lock, b: Lock, c: Lock)
    ensures !Before(a, a) && (Before(a, b) && Before(b, c) ==> Before(a, c))
  {
  }

  /* ---------- the paths ---------- */

  ghost predicate Increasing(path: seq<Lock>) {
    forall i, j :: 0 <= i < j < |path| ==> Before(path[i], path[j])
  }

  ghost predicate Ascending(ids: seq<nat>) {
    forall i, j :: 0 <= i < j < |ids| ==> ids[i] < ids[j]
  }

  function Credentials(ids: seq<nat>): seq<Lock> {
    seq(|ids|, i requires 0 <= i < |ids| => Credential(ids[i]))
  }

  function Leases(ids: seq<nat>): seq<Lock> {
    seq(|ids|, i requires 0 <= i < |ids| => Lease(ids[i]))
  }

  function Works(ids: seq<nat>): seq<Lock> {
    seq(|ids|, i requires 0 <= i < |ids| => Work(ids[i]))
  }

  function Artifacts(ids: seq<nat>): seq<Lock> {
    seq(|ids|, i requires 0 <= i < |ids| => Artifact(ids[i]))
  }

  /** The rows of one work that quarantine and retention lock. */
  function DetailsOf(work: nat): seq<Lock> {
    [Of(work, Job), Of(work, Preview), Of(work, Console)]
  }

  /** The rows of several works, one work after the other. */
  function Details(works: seq<nat>): seq<Lock> {
    if works == [] then [] else Details(works[..|works| - 1]) + DetailsOf(works[|works| - 1])
  }

  /** What a transaction does, with the rows it finds. */
  datatype Transaction =
    | Authenticate(worker: nat, credential: nat)
    | Claim(worker: nat, credential: nat, work: nat)
    | HoldLease(worker: nat, lease: nat, work: nat)
    | RegisterPreview(worker: nat, lease: nat, work: nat)
    | Reconcile(worker: nat, credential: nat, lease: nat, work: nat)
    | Decide(work: nat)
    | TransferConsole(work: nat)
    | Deliver(worker: nat, work: nat)
    | AuditStop(work: nat)
    | Quarantine(worker: nat, credentials: seq<nat>, leases: seq<nat>, works: seq<nat>)
    | Expire(workers: seq<nat>, leases: seq<nat>, work: nat, artifacts: seq<nat>)

  /** The queries of quarantine and retention return rows in the order of their identifiers. */
  ghost predicate Ordered(t: Transaction) {
    match t
    case Quarantine(_, credentials, leases, works) => Ascending(credentials) && Ascending(leases) && Ascending(works)
    case Expire(workers, leases, _, artifacts) => Ascending(workers) && Ascending(leases) && Ascending(artifacts)
    case _ => true
  }

  function WorkerLocks(ids: seq<nat>): seq<Lock> {
    seq(|ids|, i requires 0 <= i < |ids| => Worker(ids[i]))
  }

  /** The locks in the order in which the transaction takes them. */
  function Path(t: Transaction): seq<Lock> {
    match t
    case Authenticate(worker, credential) => [Worker(worker), Credential(credential)]
    case Claim(worker, credential, work) => [Worker(worker), Credential(credential), Work(work)]
    case HoldLease(worker, lease, work) => [Worker(worker), Lease(lease), Work(work)]
    case RegisterPreview(worker, lease, work) => [Worker(worker), Lease(lease), Of(work, Preview)]
    case Reconcile(worker, credential, lease, work) => [Worker(worker), Credential(credential), Lease(lease), Work(work), Of(work, Job)]
    case Decide(work) => [Work(work), Of(work, Job)]
    case TransferConsole(work) => [Work(work), Of(work, Console)]
    case Deliver(worker, work) => [Worker(worker), Work(work), Of(work, Job)]
    case AuditStop(work) => [Work(work), Of(work, Job)]
    case Quarantine(worker, credentials, leases, works) =>
      [Worker(worker)] + Credentials(credentials) + Leases(leases) + Works(works) + Details(works)
    case Expire(workers, leases, work, artifacts) =>
      WorkerLocks(workers) + Leases(leases) + [Work(work)] + DetailsOf(work) + Artifacts(artifacts)
  }

  /** The transaction reads or changes this worker, this work, or the delivery of this work, under its row's lock. */
  predicate OnWorker(t: Transaction, k: nat) {
    match t
    case Decide(_) => false
    case TransferConsole(_) => false
    case AuditStop(_) => false
    case Expire(workers, _, _, _) => k in workers
    case _ => t.worker == k
  }

  predicate OnWork(t: Transaction, w: nat) {
    match t
    case Authenticate(_, _) => false
    case RegisterPreview(_, _, _) => false
    case Quarantine(_, _, _, works) => w in works
    case _ => t.work == w
  }

  predicate OnDelivery(t: Transaction, w: nat) {
    OnWork(t, w) && !t.Claim? && !t.HoldLease? && !t.TransferConsole?
  }

  lemma {:induction false} DetailsHold(works: seq<nat>, w: nat)
    requires w in works
    ensures Of(w, Job) in Details(works)
  {
    var n := |works| - 1;
    if works[n] == w {
      assert Of(w, Job) == DetailsOf(works[n])[0];
    } else {
      DetailsHold(works[..n], w);
    }
  }

  lemma RowsAreLocked(t: Transaction, x: nat)
    ensures OnWorker(t, x) ==> Worker(x) in Path(t)
    ensures OnWork(t, x) ==> Work(x) in Path(t)
    ensures OnDelivery(t, x) ==> Of(x, Job) in Path(t)
  {
    match t
    case Quarantine(worker, credentials, leases, works) =>
      if x in works {
        var i :| 0 <= i < |works| && works[i] == x;
        assert Works(works)[i] == Work(x);
        DetailsHold(works, x);
      }
    case Expire(workers, leases, work, artifacts) =>
      if x in workers {
        var i :| 0 <= i < |workers| && workers[i] == x;
        assert WorkerLocks(workers)[i] == Worker(x);
      }
      assert Of(work, Job) == DetailsOf(work)[0];
    case _ =>
  }

  /** Transactions on the same worker, the same work or the same delivery exclude each other by a lock they have in common. */
  lemma SameRowExcludes(t: Transaction, u: Transaction, x: nat) returns (lock: Lock)
    requires (OnWorker(t, x) && OnWorker(u, x)) || (OnWork(t, x) && OnWork(u, x)) || (OnDelivery(t, x) && OnDelivery(u, x))
    ensures lock in Path(t) && lock in Path(u)
    ensures lock == if OnWorker(t, x) && OnWorker(u, x) then Worker(x) else Work(x)
  {
    RowsAreLocked(t, x);
    RowsAreLocked(u, x);
    lock := if OnWorker(t, x) && OnWorker(u, x) then Worker(x) else Work(x);
  }

  /** All locks lie in tables from `low` to `high`. */
  ghost predicate Within(path: seq<Lock>, low: nat, high: nat) {
    forall lock :: lock in path ==> low <= Table(lock) <= high
  }

  lemma Joined(a: seq<Lock>, b: seq<Lock>, low: nat, middle: nat, high: nat)
    requires Increasing(a) && Increasing(b) && Within(a, low, middle) && Within(b, middle + 1, high) && low <= middle < high
    ensures Increasing(a + b) && Within(a + b, low, high)
  {
    var path := a + b;
    forall i, j | 0 <= i < j < |path|
      ensures Before(path[i], path[j])
    {
      if i < |a| <= j {
        assert path[i] == a[i] && path[j] == b[j - |a|];
        assert a[i] in a && b[j - |a|] in b;
      }
    }
  }

  /** The details of works in order are in order: all of one work before all of the next. */
  lemma {:induction false} DetailsIncrease(works: seq<nat>)
    requires Ascending(works)
    ensures Increasing(Details(works)) && forall lock :: lock in Details(works) ==> lock.Of? && lock.work in works
  {
    if works != [] {
      var n := |works| - 1;
      DetailsIncrease(works[..n]);
      var front, last := Details(works[..n]), DetailsOf(works[n]);
      var path := front + last;
      forall i, j | 0 <= i < j < |path|
        ensures Before(path[i], path[j])
      {
        if i < |front| <= j {
          assert front[i] in front;
          assert path[j] == last[j - |front|] && last[j - |front|] in last;
        }
      }
    }
  }

  lemma QuarantineIncreases(worker: nat, credentials: seq<nat>, leases: seq<nat>, works: seq<nat>)
    requires Ascending(credentials) && Ascending(leases) && Ascending(works)
    ensures Increasing([Worker(worker)] + Credentials(credentials) + Leases(leases) + Works(works) + Details(works))
  {
    DetailsIncrease(works);
    Joined([Worker(worker)], Credentials(credentials), 0, 0, 1);
    Joined([Worker(worker)] + Credentials(credentials), Leases(leases), 0, 1, 2);
    Joined([Worker(worker)] + Credentials(credentials) + Leases(leases), Works(works), 0, 2, 3);
    Joined([Worker(worker)] + Credentials(credentials) + Leases(leases) + Works(works), Details(works), 0, 3, 4);
  }

  lemma ExpireIncreases(workers: seq<nat>, leases: seq<nat>, work: nat, artifacts: seq<nat>)
    requires Ascending(workers) && Ascending(leases) && Ascending(artifacts)
    ensures Increasing(WorkerLocks(workers) + Leases(leases) + [Work(work)] + DetailsOf(work) + Artifacts(artifacts))
  {
    Joined(WorkerLocks(workers), Leases(leases), 0, 1, 2);
    Joined(WorkerLocks(workers) + Leases(leases), [Work(work)], 0, 2, 3);
    Joined(WorkerLocks(workers) + Leases(leases) + [Work(work)], DetailsOf(work), 0, 3, 4);
    Joined(WorkerLocks(workers) + Leases(leases) + [Work(work)] + DetailsOf(work), Artifacts(artifacts), 0, 4, 5);
  }

  /** Every transaction takes its locks in one global order. */
  lemma EveryPathIncreases(t: Transaction)
    requires Ordered(t)
    ensures Increasing(Path(t))
  {
    match t
    case Quarantine(worker, credentials, leases, works) => QuarantineIncreases(worker, credentials, leases, works);
    case Expire(workers, leases, work, artifacts) => ExpireIncreases(workers, leases, work, artifacts);
    case _ =>
  }

  /* ---------- concurrent transactions ---------- */

  /** A transaction that has taken the first `taken` locks of its path. */
  datatype Agent = Agent(transaction: Transaction, taken: nat)

  ghost predicate Sound(agents: map<nat, Agent>) {
    forall a :: a in agents ==> Ordered(agents[a].transaction) && agents[a].taken <= |Path(agents[a].transaction)|
  }

  function Taken(agent: Agent): seq<Lock>
    requires agent.taken <= |Path(agent.transaction)|
  {
    Path(agent.transaction)[..agent.taken]
  }

  /** The lock the transaction asks for next; one that has them all finishes on its own. */
  predicate Asks(agent: Agent, lock: Lock) {
    agent.taken < |Path(agent.transaction)| && Path(agent.transaction)[agent.taken] == lock
  }

  /** `a` asks for a lock that `b` has taken. */
  ghost predicate WaitsFor(agents: map<nat, Agent>, a: nat, b: nat)
    requires Sound(agents)
  {
    a in agents && b in agents && a != b && exists lock :: Asks(agents[a], lock) && lock in Taken(agents[b])
  }

  function Next(agent: Agent): Lock
    requires agent.taken < |Path(agent.transaction)|
  {
    Path(agent.transaction)[agent.taken]
  }

  /** Along a wait, what is asked for grows. */
  lemma WaitsGrow(agents: map<nat, Agent>, a: nat, b: nat)
    requires Sound(agents) && WaitsFor(agents, a, b) && agents[b].taken < |Path(agents[b].transaction)|
    ensures agents[a].taken < |Path(agents[a].transaction)| && Before(Next(agents[a]), Next(agents[b]))
  {
    EveryPathIncreases(agents[b].transaction);
    var lock :| Asks(agents[a], lock) && lock in Taken(agents[b]);
    var path := Path(agents[b].transaction);
    var i :| 0 <= i < agents[b].taken && path[i] == lock;
  }

  /** Each waits for the next one. */
  ghost predicate Chain(agents: map<nat, Agent>, chain: seq<nat>)
    requires Sound(agents)
  {
    forall i :: 0 <= i < |chain| - 1 ==> WaitsFor(agents, chain[i], chain[i + 1])
  }

  predicate Waiting(agents: map<nat, Agent>, a: nat) {
    a in agents && agents[a].taken < |Path(agents[a].transaction)|
  }

  lemma ChainTail(agents: map<nat, Agent>, chain: seq<nat>)
    requires Sound(agents) && Chain(agents, chain) && |chain| >= 2
    ensures Chain(agents, chain[1..]) && WaitsFor(agents, chain[0], chain[1..][0])
  {
    var rest := chain[1..];
    forall i | 0 <= i < |rest| - 1
      ensures WaitsFor(agents, rest[i], rest[i + 1])
    {
      assert rest[i] == chain[i + 1];
    }
    assert WaitsFor(agents, chain[0], chain[0 + 1]);
  }

  lemma {:induction false} ChainGrows(agents: map<nat, Agent>, chain: seq<nat>)
    requires Sound(agents) && Chain(agents, chain) && |chain| >= 2 && Waiting(agents, chain[|chain| - 1])
    ensures Waiting(agents, chain[0]) && Before(Next(agents[chain[0]]), Next(agents[chain[|chain| - 1]]))
  {
    var first, last, rest := chain[0], chain[|chain| - 1], chain[1..];
    ChainTail(agents, chain);
    if |chain| > 2 {
      ChainGrows(agents, rest);
    }
    WaitsGrow(agents, first, rest[0]);
    BeforeIsStrict(Next(agents[first]), Next(agents[rest[0]]), Next(agents[last]));
  }

  /** No set of concurrent transactions, wherever each of them stands, waits in a circle. */
  lemma NoCircularWait(agents: map<nat, Agent>, chain: seq<nat>)
    requires Sound(agents) && Chain(agents, chain) && |chain| >= 2
    ensures chain[0] != chain[|chain| - 1]
  {
    var last := chain[|chain| - 1];
    assert WaitsFor(agents, chain[0], chain[1]);
    if Waiting(agents, last) {
      ChainGrows(agents, chain);
      BeforeIsStrict(Next(agents[last]), Next(agents[last]), Next(agents[last]));
    }
  }

  /** Of the transactions in `group`, one that asks for no earlier lock than any other. */
  lemma {:induction false} SomeoneIsLast(agents: map<nat, Agent>, group: set<nat>) returns (last: nat)
    requires Sound(agents) && group != {} && forall a :: a in group ==> a in agents && agents[a].taken < |Path(agents[a].transaction)|
    ensures last in group && forall a :: a in group ==> !Before(Next(agents[last]), Next(agents[a]))
    decreases |group|
  {
    var a :| a in group;
    var others := group - {a};
    if others == {} {
      last := a;
      BeforeIsStrict(Next(agents[a]), Next(agents[a]), Next(agents[a]));
      assert group == {a};
    } else {
      var best := SomeoneIsLast(agents, others);
      last := if Before(Next(agents[best]), Next(agents[a])) then a else best;
      forall b | b in group
        ensures !Before(Next(agents[last]), Next(agents[b]))
      {
        BeforeIsStrict(Next(agents[best]), Next(agents[a]), Next(agents[b]));
        BeforeIsStrict(Next(agents[a]), Next(agents[a]), Next(agents[a]));
      }
    }
  }

  /** As long as a transaction is unfinished, one of them can go on: it waits for nobody that is itself waiting. */
  lemma SomeoneProceeds(agents: map<nat, Agent>) returns (last: nat)
    requires Sound(agents) && exists a :: a in agents && agents[a].taken < |Path(agents[a].transaction)|
    ensures last in agents && agents[last].taken < |Path(agents[last].transaction)|
    ensures forall b :: WaitsFor(agents, last, b) ==> agents[b].taken == |Path(agents[b].transaction)|
  {
    var group := set a | a in agents && agents[a].taken < |Path(agents[a].transaction)|;
    var a :| a in agents && agents[a].taken < |Path(agents[a].transaction)|;
    assert a in group;
    last := SomeoneIsLast(agents, group);
    forall b | WaitsFor(agents, last, b)
      ensures agents[b].taken == |Path(agents[b].transaction)|
    {
      if agents[b].taken < |Path(agents[b].transaction)| {
        WaitsGrow(agents, last, b);
      }
    }
  }
}
