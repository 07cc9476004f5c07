/**
 The restart of a worker: recovery of its runs, registration, reconciliation of their leases and the return to serving
 (run_recovery.go, daemon.go).
 */
module ReleaseRestart {
  import opened ReleaseProtocol

  function Recoveries(runs: seq<nat>): seq<Action> {
    if runs == [] then [] else [RecoverRun(runs[0], Confirmed)] + Recoveries(runs[1..])
  }

  function Reconciliations(runs: seq<nat>): seq<Action> {
    if runs == [] then [] else [Reconcile(runs[0], true, Complete)] + Reconciliations(runs[1..])
  }

  /** A restart that cleans the listed runs, registers, reconciles those that the loop reaches, and tries to serve. */
  function Restart(runs: seq<nat>, reached: seq<nat>): seq<Action> {
    [Crash, Start] + Recoveries(runs) + [Register] + Reconciliations(reached) + [Serve]
  }

  /** The same state but for its journals, of which those of the runs are cleaned. */
  predicate Recovered(s: State, runs: seq<nat>, t: State) {
    && t == s.(journals := t.journals) && t.journals.Keys == s.journals.Keys
    && forall l :: l in s.journals ==> t.journals[l] == if l in runs then CleanJournal(s.journals[l], Confirmed) else s.journals[l]
  }

  lemma RecoversOne(s: State, l: nat)
    requires s.mode == Recovering && Listable(s)
    ensures Recovered(s, [l], Step(s, RecoverRun(l, Confirmed))) && Listable(Step(s, RecoverRun(l, Confirmed)))
  {
  }

  lemma RecoveredTwice(s: State, l: nat, runs: seq<nat>, t: State, u: State)
    requires Recovered(s, [l], t) && Recovered(t, runs, u)
    ensures Recovered(s, [l] + runs, u)
  {
    assert forall k :: k in [l] + runs <==> k == l || k in runs;
    forall k | k in s.journals
      ensures u.journals[k] == if k in [l] + runs then CleanJournal(s.journals[k], Confirmed) else s.journals[k]
    {
      assert k in t.journals;
    }
  }

  lemma {:induction false} RecoversAll(s: State, runs: seq<nat>)
    requires s.mode == Recovering && Listable(s)
    ensures Recovered(s, runs, Run(s, Recoveries(runs)))
    decreases runs
  {
    if runs != [] {
      var next := Step(s, RecoverRun(runs[0], Confirmed));
      assert Recoveries(runs)[1..] == Recoveries(runs[1..]);
      assert runs == [runs[0]] + runs[1..];
      RecoversOne(s, runs[0]);
      RecoversAll(next, runs[1..]);
      RecoveredTwice(s, runs[0], runs[1..], next, Run(next, Recoveries(runs[1..])));
    }
  }

  /** Nothing can be recovered while one run cannot be read. */
  lemma {:induction false} RecoversNone(s: State, runs: seq<nat>)
    requires s.mode == Recovering && !Listable(s)
    ensures Run(s, Recoveries(runs)) == s
    decreases runs
  {
    if runs != [] {
      assert Recoveries(runs)[1..] == Recoveries(runs[1..]);
      RecoversNone(s, runs[1..]);
    }
  }

  /** A registered worker whose runs are all cleaned, and returned where they are settled. */
  predicate Registered(s: State) {
    && s.mode == Reconciling && !s.fenced && Listable(s)
    && (forall l :: l in s.journals ==> CleanedUp(s, l) && l in s.leases && (s.journals[l].phase == Settled ==> s.leases[l].state == Returned))
    && (forall l :: l in s.leases && s.leases[l].state == Returned ==> s.leases[l].ended)
  }

  predicate Settles(s: State, runs: seq<nat>, l: nat) {
    l in s.journals && l in runs && Reconcilable(s, l)
  }

  /** The active leases that a reconciliation of the runs gives back. */
  function Returnable(s: State, runs: seq<nat>): set<nat> {
    set l | l in s.leases && l in s.journals && l in runs && s.leases[l].state == Active && Reconcilable(s, l)
  }

  /** Subtraction that is clamped at zero. */
  function Less(x: nat, y: nat): nat {
    if x < y then 0 else x - y
  }

  /** The runs that can be reconciled are settled and their leases returned; no other journal or lease has changed. */
  predicate Reconciled(s: State, runs: seq<nat>, t: State) {
    && t.journals.Keys == s.journals.Keys && t.leases.Keys == s.leases.Keys
    && (forall l :: l in s.journals ==> t.journals[l] == if Settles(s, runs, l) then s.journals[l].(phase := Settled) else s.journals[l])
    && (forall l :: l in s.leases ==> t.leases[l] == if Settles(s, runs, l) then s.leases[l].(state := Returned) else s.leases[l])
  }

  predicate CountedDown(s: State, runs: seq<nat>, t: State) {
    t.published.active == Less(s.published.active, |Returnable(s, runs)|)
  }

  lemma ReconcileEffect(s: State, l: nat)
    requires MayReconcile(s, l)
    ensures var t := ReconcileStep(s, l, true, Complete);
            && t.journals == s.journals[l := s.journals[l].(phase := Settled)]
            && t.leases == s.leases[l := s.leases[l].(state := Returned)]
            && t.mode == s.mode && t.fenced == s.fenced
  {
  }

  lemma NothingToReconcile(s: State, l: nat)
    requires Registered(s) && !MayReconcile(s, l)
    ensures Reconciled(s, [l], s)
  {
    assert Settles(s, [l], l) ==> s.journals[l].phase == Settled;
  }

  lemma ReconcilesOne(s: State, l: nat)
    requires Registered(s)
    ensures Registered(ReconcileStep(s, l, true, Complete)) && Reconciled(s, [l], ReconcileStep(s, l, true, Complete))
  {
    if MayReconcile(s, l) {
      ReconcileEffect(s, l);
    } else {
      NothingToReconcile(s, l);
    }
  }

  lemma OneCountsDown(s: State, l: nat)
    requires Registered(s)
    ensures CountedDown(s, [l], ReconcileStep(s, l, true, Complete))
  {
    if MayReconcile(s, l) && s.leases[l].state == Active {
      assert Returnable(s, [l]) == {l};
      assert ReconcileStep(s, l, true, Complete).published == ReturnColumns(s.published);
    } else {
      assert Returnable(s, [l]) == {};
      assert ReconcileStep(s, l, true, Complete).published == s.published;
    }
  }

  /** What is returned for one run and then for others is returned for all of them, each once. */
  lemma CountedTwice(s: State, l: nat, runs: seq<nat>, t: State, u: State)
    requires Reconciled(s, [l], t) && CountedDown(s, [l], t) && CountedDown(t, runs, u)
    ensures CountedDown(s, [l] + runs, u)
  {
    ReturnableSplits(s, l, runs, t);
    var first, rest := Returnable(s, [l]), Returnable(t, runs);
    assert |first + rest| == |first| + |rest|;
  }

  lemma ReturnableSplits(s: State, l: nat, runs: seq<nat>, t: State)
    requires Reconciled(s, [l], t)
    ensures Returnable(s, [l] + runs) == Returnable(s, [l]) + Returnable(t, runs) && Returnable(s, [l]) !! Returnable(t, runs)
  {
    assert forall k :: k in [l] + runs <==> k == l || k in runs;
    assert forall k :: k in s.leases && k !in Returnable(s, [l]) ==>
      (k in Returnable(t, runs) <==> k in runs && k in Returnable(s, [l] + runs));
  }

  lemma ReconciledTwice(s: State, l: nat, runs: seq<nat>, t: State, u: State)
    requires Reconciled(s, [l], t) && Reconciled(t, runs, u)
    ensures Reconciled(s, [l] + runs, u)
  {
    assert forall k :: k in [l] + runs <==> k == l || k in runs;
    assert forall k :: k in s.leases ==> (Reconcilable(t, k) <==> Reconcilable(s, k));
  }

  lemma {:induction false} ReconcilesAll(s: State, runs: seq<nat>)
    requires Registered(s)
    ensures var t := Run(s, Reconciliations(runs)); Registered(t) && Reconciled(s, runs, t) && CountedDown(s, runs, t)
    decreases runs
  {
    if runs == [] {
      assert Returnable(s, runs) == {};
    } else {
      var next := Step(s, Reconcile(runs[0], true, Complete));
      var last := Run(next, Reconciliations(runs[1..]));
      assert Reconciliations(runs)[1..] == Reconciliations(runs[1..]);
      assert runs == [runs[0]] + runs[1..];
      ReconcilesOne(s, runs[0]);
      OneCountsDown(s, runs[0]);
      ReconcilesAll(next, runs[1..]);
      ReconciledTwice(s, runs[0], runs[1..], next, last);
      CountedTwice(s, runs[0], runs[1..], next, last);
    }
  }

  lemma {:induction false} ReconcilesNone(s: State, runs: seq<nat>)
    requires s.mode == Recovering
    ensures Run(s, Reconciliations(runs)) == s
    decreases runs
  {
    if runs != [] {
      assert Reconciliations(runs)[1..] == Reconciliations(runs[1..]);
      ReconcilesNone(s, runs[1..]);
    }
  }

  /** The restart, step by step. */
  lemma RestartSteps(s: State, runs: seq<nat>, reached: seq<nat>)
    ensures var down := Step(Step(s, Crash), Start);
            Run(s, Restart(runs, reached)) == Step(Run(Step(Run(down, Recoveries(runs)), Register), Reconciliations(reached)), Serve)
  {
    var down := Step(Step(s, Crash), Start);
    RunAppends(s, [Crash, Start] + Recoveries(runs) + [Register] + Reconciliations(reached), [Serve]);
    RunAppends(s, [Crash, Start] + Recoveries(runs) + [Register], Reconciliations(reached));
    RunAppends(s, [Crash, Start] + Recoveries(runs), [Register]);
    RunAppends(s, [Crash, Start], Recoveries(runs));
    RunTwo(s, Crash, Start);
    RunOne(Run(down, Recoveries(runs)), Register);
    RunOne(Run(Step(Run(down, Recoveries(runs)), Register), Reconciliations(reached)), Serve);
  }

  ghost predicate Covers(runs: seq<nat>, s: State) {
    forall l :: l in s.journals ==> l in runs
  }

  lemma CleansAll(s: State, runs: seq<nat>)
    requires Inv(s) && s.mode == Recovering && Listable(s) && Covers(runs, s)
    ensures var t := Run(s, Recoveries(runs));
            t == s.(journals := t.journals) && Inv(t) && Listable(t) && SameRuns(s, t) && forall l :: l in t.journals ==> CleanedUp(t, l)
  {
    RecoversAll(s, runs);
    RunKeeps(s, Recoveries(runs));
    RecoveredIsClean(s, runs, Run(s, Recoveries(runs)));
  }

  lemma RecoveredIsClean(s: State, runs: seq<nat>, t: State)
    requires Recovered(s, runs, t) && Listable(s) && Covers(runs, s)
    ensures Listable(t) && SameRuns(s, t) && forall l :: l in t.journals ==> CleanedUp(t, l)
  {
  }

  lemma RegistersClean(s: State)
    requires Inv(s) && s.mode == Recovering && !s.fenced && Listable(s) && forall l :: l in s.journals ==> CleanedUp(s, l)
    ensures Registered(Step(s, Register)) && Inv(Step(s, Register)) && Step(s, Register) == s.(mode := Reconciling, published := RegisterColumns(s.published))
  {
  }

  lemma CrashKeeps(s: State)
    requires Inv(s)
    ensures var down := Step(Step(s, Crash), Start);
            Inv(down) && down == s.(mode := Recovering, clients := map[], lost := down.lost)
  {
    StepKeeps(s, Crash);
    StepKeeps(Step(s, Crash), Start);
  }

  /** The same runs are on record, and the same ones settled. */
  predicate SameRuns(s: State, t: State) {
    s.journals.Keys == t.journals.Keys && forall l :: l in s.journals ==> (s.journals[l].phase == Settled <==> t.journals[l].phase == Settled)
  }

  /** After a crash every run that can be read is cleaned, whatever the process was doing, and the worker may register. */
  lemma RestartRegisters(s: State, runs: seq<nat>)
    requires Reachable(s) && Listable(s) && !s.fenced && Covers(runs, s)
    ensures var registered := Step(Run(Step(Step(s, Crash), Start), Recoveries(runs)), Register);
            Registered(registered) && Inv(registered) && registered.leases == s.leases && registered.given == s.given
            && registered.published.active == s.published.active && SameRuns(s, registered)
  {
    ReachableIsSound(s);
    CrashKeeps(s);
    var down := Step(Step(s, Crash), Start);
    CleansAll(down, runs);
    RegistersClean(Run(down, Recoveries(runs)));
  }

  /** From every reachable state, however many runs it left behind, a restart settles every run that the reconciliation reaches
      and whose work has ended, with its capacity returned exactly once. */
  lemma RestartSettles(s: State, runs: seq<nat>, reached: seq<nat>, l: nat)
    requires Reachable(s) && Listable(s) && !s.fenced && Covers(runs, s)
    requires l in s.journals && l in reached && Reconcilable(s, l)
    ensures var after := Run(s, Restart(runs, reached));
            l in after.journals && after.journals[l].phase == Settled && l in after.leases && after.leases[l].state == Returned
            && Count(after.given, l) == 1
  {
    RestartSteps(s, runs, reached);
    RestartRegisters(s, runs);
    RegisteredSettles(Step(Run(Step(Step(s, Crash), Start), Recoveries(runs)), Register), reached, l);
  }

  lemma RegisteredSettles(s: State, runs: seq<nat>, l: nat)
    requires Registered(s) && Inv(s) && Settles(s, runs, l)
    ensures var after := Step(Run(s, Reconciliations(runs)), Serve);
            l in after.journals && after.journals[l].phase == Settled && l in after.leases && after.leases[l].state == Returned
            && Count(after.given, l) == 1
  {
    ReconcilesAll(s, runs);
    RunKeeps(s, Reconciliations(runs));
    ReturnedOnce(Run(s, Reconciliations(runs)), l);
  }

  lemma ReturnedOnce(s: State, l: nat)
    requires Inv(s) && l in s.leases && s.leases[l].state == Returned
    ensures Step(s, Serve).leases == s.leases && Step(s, Serve).journals == s.journals && Count(Step(s, Serve).given, l) == 1
  {
  }

  /** Every run on record is settled or can be. */
  predicate AllReconcilable(s: State) {
    forall l :: l in s.journals ==> s.journals[l].phase == Settled || Reconcilable(s, l)
  }

  /** The active leases of recorded runs that a reconciliation gives back. */
  function Recorded(s: State): set<nat> {
    set l | l in s.leases && l in s.journals && s.leases[l].state == Active && Reconcilable(s, l)
  }

  /** Exactly when a restart brings the worker back to serving: it is not quarantined, every run can be read, every unsettled
      run can be reconciled, and the count that was published last is no more than what the reconciliation gives back. */
  lemma RestartServes(s: State, runs: seq<nat>, reached: seq<nat>)
    requires Reachable(s) && Covers(runs, s) && Covers(reached, s)
    ensures Run(s, Restart(runs, reached)).mode == Serving <==>
              !s.fenced && Listable(s) && AllReconcilable(s) && s.published.active <= |Recorded(s)|
  {
    RestartSteps(s, runs, reached);
    ReachableIsSound(s);
    var down := Step(Step(s, Crash), Start);
    if !Listable(s) {
      RecoversNone(down, runs);
      ReconcilesNone(down, reached);
    } else if s.fenced {
      RecoversAll(down, runs);
      ReconcilesNone(Run(down, Recoveries(runs)), reached);
    } else {
      RestartRegisters(s, runs);
      var registered := Step(Run(down, Recoveries(runs)), Register);
      RegisteredServes(registered, reached);
      SameCondition(s, registered);
    }
  }

  lemma SameCondition(s: State, t: State)
    requires s.leases == t.leases && SameRuns(s, t)
    ensures Recorded(t) == Recorded(s) && (AllReconcilable(t) <==> AllReconcilable(s))
  {
    assert forall l :: Reconcilable(s, l) <==> Reconcilable(t, l);
    assert forall l :: l in s.journals <==> l in s.journals.Keys;
    assert forall l :: l in t.journals <==> l in t.journals.Keys;
  }

  lemma RegisteredServes(s: State, runs: seq<nat>)
    requires Registered(s) && Covers(runs, s)
    ensures Step(Run(s, Reconciliations(runs)), Serve).mode == Serving <==> AllReconcilable(s) && s.published.active <= |Recorded(s)|
  {
    ReconcilesAll(s, runs);
    var t := Run(s, Reconciliations(runs));
    SettledThen(s, runs, t);
    assert Returnable(s, runs) == Recorded(s);
  }

  lemma SettledThen(s: State, runs: seq<nat>, t: State)
    requires Covers(runs, s) && Reconciled(s, runs, t)
    ensures (forall l :: l in t.journals ==> t.journals[l].phase == Settled) <==> AllReconcilable(s)
  {
    assert forall l :: l in s.journals ==> (Settles(s, runs, l) <==> Reconcilable(s, l));
  }

  /** When the published count is what the API holds, a restart serves exactly when, besides, every lease is returned or on record. */
  lemma AgreedRestartServes(s: State, runs: seq<nat>, reached: seq<nat>)
    requires Reachable(s) && Agreed(s) && Covers(runs, s) && Covers(reached, s)
    ensures Run(s, Restart(runs, reached)).mode == Serving <==>
              !s.fenced && Listable(s) && AllReconcilable(s)
              && forall l :: l in s.leases ==> s.leases[l].state == Returned || l in s.journals
  {
    ReachableIsSound(s);
    RestartServes(s, runs, reached);
    assert Recorded(s) <= Reserved(s.leases);
    SubsetIsSmaller(Recorded(s), Reserved(s.leases));
    if AllReconcilable(s) && forall l :: l in s.leases ==> s.leases[l].state == Returned || l in s.journals {
      forall l | l in Reserved(s.leases)
        ensures l in Recorded(s)
      {
        assert l in s.journals && s.journals[l].phase != Settled;
      }
      assert Recorded(s) == Reserved(s.leases);
    } else if AllReconcilable(s) && |Recorded(s)| == |Reserved(s.leases)| {
      assert forall l :: l in s.leases && s.leases[l].state != Returned ==> l in Reserved(s.leases);
    }
  }

  /** Once the worker is down, a count above the active leases stays above them. */
  ghost predicate Overstated(s: State) {
    Inv(s) && s.mode != Serving && s.published.active > |ActiveLeases(s.leases)|
  }

  lemma ReconcileStaysOverstated(s: State, l: nat, acknowledged: bool, w: Write)
    requires Overstated(s)
    ensures Overstated(ReconcileStep(s, l, acknowledged, w))
  {
    ReconcileKeeps(s, l, acknowledged, w);
    if MayReconcile(s, l) && s.leases[l].state == Active {
      assert l in ActiveLeases(s.leases);
      assert ActiveLeases(ReconcileStep(s, l, acknowledged, w).leases) == ActiveLeases(s.leases) - {l};
    }
  }

  /** While the worker is down nothing else changes the active leases or the count. */
  lemma SameWhileDown(s: State, action: Action)
    requires Inv(s) && s.mode != Serving && s.published.active > 0 && !action.Reconcile? && !action.Quarantine?
    ensures var t := Step(s, action);
            t.mode != Serving && t.published.active == s.published.active && ActiveLeases(t.leases) == ActiveLeases(s.leases)
  {
    assert s.clients == map[];
  }

  lemma StaysOverstated(s: State, action: Action)
    requires Overstated(s)
    ensures Overstated(Step(s, action))
  {
    StepKeeps(s, action);
    if action.Reconcile? {
      ReconcileStaysOverstated(s, action.l, action.acknowledged, action.w);
    } else if action.Quarantine? {
      assert ActiveLeases(Step(s, action).leases) == {};
    } else {
      SameWhileDown(s, action);
    }
  }

  /** A worker that went down with a published count above its active leases never serves again, whatever anybody does. */
  lemma {:induction false} OverstatedNeverServes(s: State, actions: seq<Action>)
    requires Overstated(s)
    ensures Overstated(Run(s, actions))
    decreases actions
  {
    if actions != [] {
      StaysOverstated(s, actions[0]);
      OverstatedNeverServes(Step(s, actions[0]), actions[1..]);
    }
  }

  /** A run that cannot be read keeps its worker from serving ever again after the next crash. */
  lemma {:induction false} TornRunStopsTheWorker(s: State, actions: seq<Action>)
    requires !Listable(s) && (s.mode == Down || s.mode == Recovering)
    ensures var t := Run(s, actions); !Listable(t) && (t.mode == Down || t.mode == Recovering)
    decreases actions
  {
    if actions != [] {
      var l :| l in s.journals && s.journals[l].torn;
      assert l in Step(s, actions[0]).journals && Step(s, actions[0]).journals[l].torn;
      TornRunStopsTheWorker(Step(s, actions[0]), actions[1..]);
    }
  }

  /* ---------- runs that show where the conditions are needed ---------- */

  const SERVING := INITIAL.(mode := Serving)

  /** A worker that serves one lease, number 0. */
  function One(lease: Lease, journals: map<nat, Journal>, clients: map<nat, Client>, published: Columns, lost: set<nat>, given: map<nat, nat>): State {
    State(map[0 := lease], journals, clients, Serving, false, published, lost, given)
  }

  lemma ServesAtFirst()
    ensures Run(INITIAL, [Start, Register, Serve]) == SERVING
  {
    assert [Start, Register, Serve][1..] == [Register, Serve];
    RunTwo(INITIAL.(mode := Recovering), Register, Serve);
  }

  lemma ReachesOneMore(s: State, action: Action)
    requires Reachable(s)
    ensures Reachable(Step(s, action))
  {
    var actions :| Run(INITIAL, actions) == s;
    RunAppends(INITIAL, actions, [action]);
    RunOne(s, action);
  }

  lemma ServingIsReachable()
    ensures Reachable(SERVING)
  {
    ServesAtFirst();
  }

  lemma OneEnds(lease: Lease, journals: map<nat, Journal>, clients: map<nat, Client>, published: Columns)
    ensures Step(One(lease, journals, clients, published, {}, map[]), EndWork(0))
         == One(lease.(ended := true), journals, clients, published, {}, map[])
  {
  }

  lemma OneDelivers(journals: map<nat, Journal>, clients: map<nat, Client>, published: Columns)
    ensures Step(One(Lease(Active, false, true), journals, clients, published, {}, map[]), Deliver(0))
         == One(Lease(Active, false, false), journals, clients, published, {}, map[])
  {
  }

  lemma OneCleans(lease: Lease, journal: Journal, published: Columns)
    ensures Step(One(lease, map[0 := journal], map[0 := Client(Bound, false)], published, {}, map[]), Cleanup(0, Confirmed))
         == One(lease, map[0 := CleanJournal(journal, Confirmed)], map[0 := Client(Bound, false)], published, {}, map[])
  {
  }

  lemma OneReleases(delivered: bool, journal: Journal, stage: Stage, acknowledged: bool)
    requires stage == Closing || (stage == Bound && journal.phase == Cleaned && !journal.torn)
    ensures Step(One(Lease(Active, true, delivered), map[0 := journal], map[0 := Client(stage, false)], Columns(1, 1), {}, map[]), Release(0, acknowledged))
         == One(Lease(Returned, true, delivered), map[0 := journal], map[0 := Client(stage, acknowledged)], Columns(0, 0), {}, map[0 := 1])
  {
    var s := One(Lease(Active, true, delivered), map[0 := journal], map[0 := Client(stage, false)], Columns(1, 1), {}, map[]);
    assert MayRelease(s, 0) && Releasable(s, 0);
    var t := Step(s, Release(0, acknowledged));
    assert t.given == map[0 := 1] && t.clients == map[0 := Client(stage, acknowledged)];
    assert t.leases == map[0 := Lease(Returned, true, delivered)];
  }

  /** An answered claim whose record was written as `w` says. */
  lemma ClaimedAndRecorded(w: Write) returns (s: State)
    ensures Reachable(s)
    ensures s == One(Lease(Active, false, true), map[0 := Journal(Prepared, w.CutShort?, w.Complete?)],
                     map[0 := Client(if w.Complete? then Bound else Closing, false)], Columns(1, 1), {}, map[])
  {
    ServingIsReachable();
    var claimed := Step(SERVING, Claim(0, true));
    ReachesOneMore(SERVING, Claim(0, true));
    ReachesOneMore(claimed, Record(0, w));
    assert claimed == One(Lease(Active, false, true), map[], map[0 := Client(Claimed, false)], Columns(1, 1), {}, map[]);
    s := Step(claimed, Record(0, w));
  }

  lemma UnboundReturn() returns (s: State)
    ensures Reachable(s)
    ensures s == One(Lease(Returned, true, true), map[0 := Journal(Prepared, false, false)], map[0 := Client(Closing, true)],
                     Columns(0, 0), {}, map[0 := 1])
  {
    var recorded := ClaimedAndRecorded(Unreported);
    ReachesOneMore(recorded, EndWork(0));
    OneEnds(Lease(Active, false, true), recorded.journals, recorded.clients, Columns(1, 1));
    var ended := Step(recorded, EndWork(0));
    ReachesOneMore(ended, Release(0, true));
    OneReleases(true, Journal(Prepared, false, false), Closing, true);
    s := Step(ended, Release(0, true));
  }

  /** A run whose record was written in full but reported as failed gives its capacity back while it stands at prepared; a
      restart cleans and settles it, without a second return, and serves. */
  lemma UnboundRunReturnsUncleaned() returns (s: State)
    ensures Reachable(s) && ReturnedUncleaned(s, 0) && s.journals[0] == Journal(Prepared, false, false) && Count(s.given, 0) == 1
    ensures var after := Run(s, Restart([0], [0]));
            after.mode == Serving && 0 in after.journals && after.journals[0].phase == Settled && Count(after.given, 0) == 1
  {
    s := UnboundReturn();
    assert Listable(s) && Covers([0], s) && Reconcilable(s, 0);
    RestartSettles(s, [0], [0], 0);
    RestartServes(s, [0], [0]);
  }

  /** A cleaned run of ended work whose release the API committed without the worker learning of it. */
  lemma ReleasedUnheard(delivering: bool) returns (s: State)
    ensures Reachable(s)
    ensures s == One(Lease(Returned, true, !delivering), map[0 := Journal(Cleaned, false, true)], map[0 := Client(Bound, false)],
                     Columns(0, 0), {}, map[0 := 1])
  {
    var recorded := ClaimedAndRecorded(Complete);
    var moved := recorded;
    if delivering {
      ReachesOneMore(recorded, Deliver(0));
      OneDelivers(recorded.journals, recorded.clients, Columns(1, 1));
      moved := Step(recorded, Deliver(0));
    }
    ReachesOneMore(moved, EndWork(0));
    OneEnds(Lease(Active, false, !delivering), recorded.journals, recorded.clients, Columns(1, 1));
    var ended := Step(moved, EndWork(0));
    ReachesOneMore(ended, Cleanup(0, Confirmed));
    OneCleans(Lease(Active, true, !delivering), Journal(Prepared, false, true), Columns(1, 1));
    var cleaned := Step(ended, Cleanup(0, Confirmed));
    ReachesOneMore(cleaned, Release(0, false));
    OneReleases(!delivering, Journal(Cleaned, false, true), Bound, false);
    s := Step(cleaned, Release(0, false));
  }

  /** Whether a restart serves from where the only run is cleaned and its lease returned. */
  lemma ReturnedServes(s: State, delivered: bool)
    requires Reachable(s) && s.leases == map[0 := Lease(Returned, true, delivered)] && s.journals == map[0 := Journal(Cleaned, false, true)]
    requires !s.fenced && s.published.active == 0
    ensures AllReconcilable(s) <==> delivered
    ensures Run(s, Restart([0], [0])).mode == Serving <==> delivered
  {
    RestartServes(s, [0], [0]);
    assert Reconcilable(s, 0) <==> delivered;
  }

  const UNHEARD := One(Lease(Returned, true, true), map[0 := Journal(Cleaned, false, true)], map[0 := Client(Bound, false)],
                       Columns(0, 0), {}, map[0 := 1])

  /** A heartbeat between a release that was not acknowledged and a crash: the count that it published is never taken back, so
      the worker never serves again, although nothing is reserved and its only run can be reconciled. Without that heartbeat
      it serves after the next restart. */
  lemma HeartbeatAfterUnheardRelease(later: seq<Action>) returns (s: State)
    ensures Reachable(s) && s == UNHEARD && AllReconcilable(s) && Reserved(s.leases) == {}
    ensures Run(s, Restart([0], [0])).mode == Serving
    ensures Run(Step(Step(s, Heartbeat), Crash), later).mode != Serving
  {
    s := ReleasedUnheard(false);
    ReturnedServes(s, true);
    var beat := Step(s, Heartbeat);
    ReachesOneMore(s, Heartbeat);
    ReachesOneMore(beat, Crash);
    ReachableIsSound(Step(beat, Crash));
    OverstatedBeat(s);
    OverstatedNeverServes(Step(beat, Crash), later);
  }

  lemma OverstatedBeat(s: State)
    requires s.mode == Serving && !s.fenced && s.clients.Keys == {0} && ActiveLeases(s.leases) == {}
    ensures var down := Step(Step(s, Heartbeat), Crash);
            down.mode == Down && down.published.active == 1 && ActiveLeases(down.leases) == {}
  {
    assert |s.clients| == |s.clients.Keys| == 1;
  }

  lemma LostClaim() returns (s: State)
    ensures Reachable(s) && s == One(Lease(Active, false, true), map[], map[], Columns(0, 0), {0}, map[])
  {
    ServingIsReachable();
    var claimed := Step(SERVING, Claim(0, false));
    ReachesOneMore(SERVING, Claim(0, false));
    ReachesOneMore(claimed, Heartbeat);
    s := Step(claimed, Heartbeat);
  }

  /** A heartbeat after a claim whose answer was lost: a restart serves although an active lease is on no record. */
  lemma HeartbeatAfterLostClaim() returns (s: State)
    ensures Reachable(s) && s.published.active == 0 && ActiveLeases(s.leases) == {0}
    ensures var after := Run(s, Restart([], []));
            after.mode == Serving && after.leases == s.leases && after.clients == map[] && after.journals == map[]
  {
    s := LostClaim();
    RestartServes(s, [], []);
    RestartSteps(s, [], []);
    var down := Step(Step(s, Crash), Start);
    assert down.leases == s.leases && down.clients == map[] && down.journals == map[];
  }

  /** A release of work whose delivery is still unfinished: the worker does not serve until that has ended, and then does. */
  lemma RestartWaitsForDelivery() returns (s: State)
    ensures Reachable(s) && Run(s, Restart([0], [0])).mode != Serving
    ensures Run(Step(s, EndDelivery(0)), Restart([0], [0])).mode == Serving
  {
    s := ReleasedUnheard(true);
    ReturnedServes(s, false);
    ReachesOneMore(s, EndDelivery(0));
    assert Step(s, EndDelivery(0)).leases == map[0 := Lease(Returned, true, true)];
    ReturnedServes(Step(s, EndDelivery(0)), true);
  }
}
