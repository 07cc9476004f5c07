/**
 Worker capacity over whole runs: what is available and what is reserved always add up.
 */
module ControlPlaneCapacity {
  import opened StateMachine
  import opened Wrappers
  import opened ControlPlane
  import opened ControlPlaneInvariants
  import opened ControlPlaneHistory

  /* ---------- reservations ---------- */

  function Plus(x: Usage, y: Usage): Usage {
    Usage(x.cpu + y.cpu, x.memory + y.memory, x.disk + y.disk, x.runs + y.runs)
  }

  /** The lease still reserves its amount on worker `k`: it is active, or withheld by quarantine. */
  predicate Holds(lease: Lease, k: nat) {
    lease.worker == k && lease.state != Returned
  }

  /** Everything reserved on worker `k`. */
  function Held(leases: seq<Lease>, k: nat): Usage {
    if leases == [] then Usage(0, 0, 0, 0)
    else
      var before, last := Held(leases[..|leases| - 1], k), leases[|leases| - 1];
      if Holds(last, k) then Plus(before, last.amount) else before
  }

  ghost predicate SameHolding(x: Lease, y: Lease, k: nat) {
    Holds(x, k) == Holds(y, k) && x.amount == y.amount
  }

  lemma {:induction false} HeldBySame(xs: seq<Lease>, ys: seq<Lease>, k: nat)
    requires |xs| == |ys| && forall l :: 0 <= l < |xs| ==> SameHolding(xs[l], ys[l], k)
    ensures Held(xs, k) == Held(ys, k)
  {
    if xs != [] {
      HeldBySame(xs[..|xs| - 1], ys[..|ys| - 1], k);
      assert SameHolding(xs[|xs| - 1], ys[|ys| - 1], k);
    }
  }

  lemma HeldByLonger(leases: seq<Lease>, last: Lease, k: nat)
    ensures Held(leases + [last], k) == if Holds(last, k) then Plus(Held(leases, k), last.amount) else Held(leases, k)
  {
    assert (leases + [last])[..|leases|] == leases;
  }

  /** A lease that ends stops holding exactly its amount. */
  lemma {:induction false} HeldWithout(leases: seq<Lease>, l: nat, left: Lease, k: nat)
    requires l < |leases| && Holds(leases[l], k) && !Holds(left, k)
    ensures Held(leases, k) == Plus(Held(leases[l := left], k), leases[l].amount)
  {
    var n := |leases| - 1;
    var after := leases[l := left];
    if l == n {
      assert after[..n] == leases[..n];
    } else {
      assert after[..n] == leases[..n][l := left];
      HeldWithout(leases[..n], l, left, k);
    }
  }

  lemma {:induction false} HeldIsPositive(leases: seq<Lease>, k: nat)
    requires forall l :: 0 <= l < |leases| ==> Amount(leases[l].amount)
    ensures Held(leases, k).cpu >= 0 && Held(leases, k).memory >= 0 && Held(leases, k).disk >= 0 && Held(leases, k).runs >= 0
  {
    if leases != [] {
      HeldIsPositive(leases[..|leases| - 1], k);
    }
  }

  /* ---------- the balance of a worker ---------- */

  /** What is available and what is reserved make up the worker, and its runs are counted. */
  ghost predicate Balanced(worker: Worker, held: Usage) {
    && worker.cpu + held.cpu == worker.cpuTotal && worker.memory + held.memory == worker.memoryTotal
    && worker.activeRuns == held.runs && worker.cpu >= 0 && worker.memory >= 0
  }

  ghost predicate CapacityOk(workers: seq<Worker>, leases: seq<Lease>) {
    forall k :: 0 <= k < |workers| ==> Balanced(workers[k], Held(leases, k))
  }

  /** Available and reserved disk together stay the same. */
  ghost predicate DiskKept(workers: seq<Worker>, leases: seq<Lease>, after: seq<Worker>, left: seq<Lease>) {
    && |workers| <= |after|
    && forall k :: 0 <= k < |workers| ==> after[k].disk + Held(left, k).disk == workers[k].disk + Held(leases, k).disk
  }

  /** Only columns that do not count capacity differ. */
  ghost predicate SameCapacity(x: Worker, y: Worker) {
    y.(state := x.state, quarantined := x.quarantined, credentialRequired := x.credentialRequired, mock := x.mock) == x
  }

  lemma SameCapacityKeeps(workers: seq<Worker>, leases: seq<Lease>, after: seq<Worker>, left: seq<Lease>)
    requires CapacityOk(workers, leases)
    requires |after| == |workers| && forall k :: 0 <= k < |workers| ==> SameCapacity(workers[k], after[k])
    requires |left| == |leases|
    requires forall l :: 0 <= l < |leases| ==> left[l].worker == leases[l].worker && left[l].amount == leases[l].amount
    requires forall l :: 0 <= l < |leases| ==> (left[l].state == Returned <==> leases[l].state == Returned)
    ensures CapacityOk(after, left) && DiskKept(workers, leases, after, left)
  {
    forall k | 0 <= k < |workers|
      ensures Held(left, k) == Held(leases, k)
    {
      HeldBySame(leases, left, k);
    }
    assert forall k :: 0 <= k < |workers| ==> SameCapacity(workers[k], after[k]);
  }

  lemma RegisteringKeeps(workers: seq<Worker>, leases: seq<Lease>, worker: Worker)
    requires CapacityOk(workers, leases) && forall l :: 0 <= l < |leases| ==> leases[l].worker < |workers|
    requires worker.cpu == worker.cpuTotal >= 0 && worker.memory == worker.memoryTotal >= 0 && worker.activeRuns == 0
    ensures CapacityOk(workers + [worker], leases) && DiskKept(workers, leases, workers + [worker], leases)
  {
    NothingHeld(leases, |workers|);
  }

  lemma {:induction false} NothingHeld(leases: seq<Lease>, k: nat)
    requires forall l :: 0 <= l < |leases| ==> leases[l].worker != k
    ensures Held(leases, k) == Usage(0, 0, 0, 0)
  {
    if leases != [] {
      NothingHeld(leases[..|leases| - 1], k);
    }
  }

  function Taken(worker: Worker, amount: Usage): Worker {
    worker.(cpu := worker.cpu - amount.cpu, memory := worker.memory - amount.memory,
            disk := worker.disk - amount.disk, activeRuns := worker.activeRuns + 1)
  }

  lemma ClaimingKeeps(workers: seq<Worker>, leases: seq<Lease>, k: nat, lease: Lease)
    requires CapacityOk(workers, leases) && k < |workers| && lease.worker == k && lease.state == Active && lease.amount.runs == 1
    requires workers[k].cpu >= lease.amount.cpu && workers[k].memory >= lease.amount.memory
    ensures CapacityOk(workers[k := Taken(workers[k], lease.amount)], leases + [lease])
    ensures DiskKept(workers, leases, workers[k := Taken(workers[k], lease.amount)], leases + [lease])
  {
    forall i: nat
      ensures Held(leases + [lease], i) == if Holds(lease, i) then Plus(Held(leases, i), lease.amount) else Held(leases, i)
    {
      HeldByLonger(leases, lease, i);
    }
  }

  function Restored(worker: Worker, amount: Usage): Worker {
    worker.(cpu := worker.cpu + amount.cpu, memory := worker.memory + amount.memory,
            disk := worker.disk + amount.disk, activeRuns := worker.activeRuns - 1)
  }

  lemma HeldByOthers(leases: seq<Lease>, l: nat, left: Lease, k: nat)
    requires l < |leases| && leases[l].worker != k && left.worker != k
    ensures Held(leases[l := left], k) == Held(leases, k)
  {
    if l == |leases| - 1 {
      assert leases[l := left][..l] == leases[..l];
    } else {
      assert leases[l := left][..|leases| - 1] == leases[..|leases| - 1][l := left];
      HeldByOthers(leases[..|leases| - 1], l, left, k);
    }
  }

  /** Returning a lease gives back its amount exactly: the clamps at the totals and at zero never bind. */
  lemma ReturningIsExact(workers: seq<Worker>, leases: seq<Lease>, l: nat)
    requires CapacityOk(workers, leases) && l < |leases| && leases[l].state != Returned && leases[l].worker < |workers|
    requires forall i :: 0 <= i < |leases| ==> Amount(leases[i].amount)
    ensures GiveBack(workers[leases[l].worker], leases[l].amount) == Restored(workers[leases[l].worker], leases[l].amount)
  {
    var k := leases[l].worker;
    var after := leases[l := leases[l].(state := Returned)];
    HeldWithout(leases, l, leases[l].(state := Returned), k);
    HeldIsPositive(after, k);
    assert Balanced(workers[k], Held(leases, k));
  }

  lemma ReturningKeepsCapacity(workers: seq<Worker>, leases: seq<Lease>, l: nat, left: Lease)
    requires CapacityOk(workers, leases) && l < |leases| && leases[l].state != Returned && leases[l].worker < |workers|
    requires left.worker == leases[l].worker && left.amount == leases[l].amount && left.state == Returned
    requires forall i :: 0 <= i < |leases| ==> Amount(leases[i].amount)
    ensures CapacityOk(workers[left.worker := GiveBack(workers[left.worker], left.amount)], leases[l := left])
    ensures DiskKept(workers, leases, workers[left.worker := GiveBack(workers[left.worker], left.amount)], leases[l := left])
  {
    ReturningIsExact(workers, leases, l);
    HeldWithout(leases, l, left, left.worker);
    forall k: nat | k != left.worker
      ensures Held(leases[l := left], k) == Held(leases, k)
    {
      HeldByOthers(leases, l, left, k);
    }
    assert Balanced(workers[left.worker], Held(leases, left.worker));
  }

  /* ---------- every transaction keeps the balance ---------- */

  ghost predicate Kept(s: DB, t: DB) {
    CapacityOk(t.workers, t.leases) && DiskKept(s.workers, s.leases, t.workers, t.leases)
  }

  predicate MovesCapacity(action: Action) {
    action.LRegister? || action.LClaim? || action.LRelease? || action.LReconcile?
  }

  /** Deliveries and people's decisions touch neither workers nor leases. */
  lemma PublicationsTouchNoRows(s: DB, action: Action)
    requires Apply(s, action).Some? && OfPublication(action)
    ensures Step(s, action).workers == s.workers && Step(s, action).leases == s.leases
  {
  }

  lemma AftermathTouchesNoRows(s: DB, action: Action)
    requires Apply(s, action).Some? && OfAftermath(action)
    ensures Step(s, action).workers == s.workers && Step(s, action).leases == s.leases
  {
  }

  lemma PersonsTouchNoRows(s: DB, action: Action)
    requires Apply(s, action).Some? && OfPerson(action)
    ensures Step(s, action).workers == s.workers && Step(s, action).leases == s.leases
  {
  }

  /** Every other transaction leaves all capacity columns and all reservations alone. */
  lemma OthersKeep(s: DB, action: Action)
    requires Apply(s, action).Some? && CapacityOk(s.workers, s.leases) && !MovesCapacity(action) && (OfHost(action) || OfLease(action))
    ensures Kept(s, Step(s, action))
  {
    SameCapacityKeeps(s.workers, s.leases, Step(s, action).workers, Step(s, action).leases);
  }

  lemma ReleaseKeepsCapacity(s: DB, l: nat, now: int, seconds: int)
    requires Inv(s) && CapacityOk(s.workers, s.leases) && Release(s, l, now, seconds).Some?
    ensures Kept(s, Release(s, l, now, seconds).value)
  {
    ReturningKeepsCapacity(s.workers, s.leases, l, s.leases[l].(expires := now + seconds, state := Returned));
    assert Release(s, l, now, seconds).value.leases == s.leases[l := s.leases[l].(expires := now + seconds, state := Returned)];
  }

  lemma ReconcileKeepsCapacity(s: DB, k: nat, l: nat, w: nat, expected: int)
    requires Inv(s) && CapacityOk(s.workers, s.leases) && Reconcile(s, k, l, w, expected).Some?
    ensures Kept(s, Reconcile(s, k, l, w, expected).value)
  {
    if s.leases[l].state == Active {
      ReturningKeepsCapacity(s.workers, s.leases, l, s.leases[l].(state := Returned));
    }
  }

  lemma RegisterKeepsCapacity(s: DB, cpu: int, memory: int, disk: int, mock: bool)
    requires CapacityOk(s.workers, s.leases) && Apply(s, LRegister(cpu, memory, disk, mock)).Some?
    requires forall i :: 0 <= i < |s.leases| ==> s.leases[i].worker < |s.workers|
    ensures Kept(s, Step(s, LRegister(cpu, memory, disk, mock)))
  {
    RegisteringKeeps(s.workers, s.leases, Worker(Online, false, false, mock, cpu, memory, cpu, memory, disk, 0));
  }

  lemma ClaimKeepsCapacity(s: DB, k: nat, w: nat, amount: Usage, expires: int)
    requires Inv(s) && CapacityOk(s.workers, s.leases) && Claim(s, k, w, amount, expires).Some?
    ensures Kept(s, Claim(s, k, w, amount, expires).value)
  {
    ClaimingKeeps(s.workers, s.leases, k, Lease(w, k, Active, expires, amount));
  }

  lemma MoversKeep(s: DB, action: Action)
    requires Inv(s) && CapacityOk(s.workers, s.leases) && MovesCapacity(action) && Apply(s, action).Some?
    ensures Kept(s, Step(s, action))
  {
    match action
    case LRegister(cpu, memory, disk, mock) => RegisterKeepsCapacity(s, cpu, memory, disk, mock);
    case LClaim(k, w, amount, expires) => ClaimKeepsCapacity(s, k, w, amount, expires);
    case LRelease(l, now, seconds) => ReleaseKeepsCapacity(s, l, now, seconds);
    case LReconcile(k, l, w, expected) => ReconcileKeepsCapacity(s, k, l, w, expected);
    case _ =>
  }

  lemma StepKeepsCapacity(s: DB, action: Action)
    requires Inv(s) && CapacityOk(s.workers, s.leases)
    ensures Kept(s, Step(s, action))
  {
    if Apply(s, action).None? {
    } else if MovesCapacity(action) {
      MoversKeep(s, action);
    } else if OfPublication(action) {
      PublicationsTouchNoRows(s, action);
    } else if OfAftermath(action) {
      AftermathTouchesNoRows(s, action);
    } else if OfPerson(action) {
      PersonsTouchNoRows(s, action);
    } else {
      OthersKeep(s, action);
    }
  }

  lemma {:induction false} RunKeepsCapacity(s: DB, actions: seq<Action>)
    requires Inv(s) && CapacityOk(s.workers, s.leases)
    ensures Kept(s, Run(s, actions))
    decreases actions
  {
    if actions != [] {
      StepKeeps(s, actions[0]);
      StepKeepsCapacity(s, actions[0]);
      RunKeepsCapacity(Step(s, actions[0]), actions[1..]);
    }
  }

  /* ---------- whole runs ---------- */

  /** Over any run, available plus reserved CPU and memory are the worker's totals, and its active runs are its reservations. */
  lemma CapacityIsConserved(s: DB, k: nat)
    requires Reachable(s) && k < |s.workers|
    ensures Balanced(s.workers[k], Held(s.leases, k))
  {
    var actions :| Run(EMPTY, actions) == s;
    RunKeepsCapacity(EMPTY, actions);
  }

  /** Over any run, available plus reserved disk stay what they were. */
  lemma DiskIsConserved(s: DB, actions: seq<Action>, k: nat)
    requires Reachable(s) && k < |s.workers|
    ensures k < |Run(s, actions).workers|
    ensures Run(s, actions).workers[k].disk + Held(Run(s, actions).leases, k).disk == s.workers[k].disk + Held(s.leases, k).disk
  {
    ReachableIsSound(s);
    forall i | 0 <= i < |s.workers|
      ensures Balanced(s.workers[i], Held(s.leases, i))
    {
      CapacityIsConserved(s, i);
    }
    RunKeepsCapacity(s, actions);
  }

  /** The capacity of a lease returns at most once: only when its work has ended, exactly its amount, and never again afterwards. */
  lemma CapacityReturnsOnce(s: DB, l: nat, action: Action, later: seq<Action>)
    requires Reachable(s) && l < |s.leases| && s.leases[l].state != Returned
    requires l < |Step(s, action).leases| && Step(s, action).leases[l].state == Returned
    ensures s.leases[l].state == Active && Terminal(s.works[s.leases[l].work].status)
    ensures s.leases[l].worker < |s.workers|
    ensures Step(s, action).workers == s.workers[s.leases[l].worker := Restored(s.workers[s.leases[l].worker], s.leases[l].amount)]
    ensures l < |Run(Step(s, action), later).leases| && Run(Step(s, action), later).leases[l].state == Returned
  {
    ReachableIsSound(s);
    StepKeeps(s, action);
    StepEvolves(s, action);
    RunEvolves(Step(s, action), later);
    forall i | 0 <= i < |s.workers|
      ensures Balanced(s.workers[i], Held(s.leases, i))
    {
      CapacityIsConserved(s, i);
    }
    ReturningIsExact(s.workers, s.leases, l);
    OnlyReturnsEnd(s, action, l);
  }

  lemma OnlyReturnsEnd(s: DB, action: Action, l: nat)
    requires l < |s.leases| && s.leases[l].state != Returned
    requires l < |Step(s, action).leases| && Step(s, action).leases[l].state == Returned
    ensures (action.LRelease? || action.LReconcile?) && action.l == l && Apply(s, action).Some?
  {
  }
}
