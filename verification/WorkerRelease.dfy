/**
 A worker's local accounting of its runs and the release of one run (tracker.go, resources.go, daemon.go).
 The API, the physical cleanup and the journal answer as they like.
 */
module WorkerRelease {
  import opened StateMachine
  import opened Wrappers

  datatype Resources = Resources(cpu: int, memory: int, disk: int)

  function Plus(x: Resources, y: Resources): Resources {
    Resources(x.cpu + y.cpu, x.memory + y.memory, x.disk + y.disk)
  }

  /** The resources of `n` runs of the same size. */
  function Times(n: nat, each: Resources): Resources {
    if n == 0 then Resources(0, 0, 0) else Plus(Times(n - 1, each), each)
  }

  predicate Positive(r: Resources) {
    r.cpu >= 0 && r.memory >= 0 && r.disk >= 0
  }

  lemma {:induction false} TimesIsPositive(n: nat, each: Resources)
    requires Positive(each)
    ensures Positive(Times(n, each))
  {
    if n > 0 {
      TimesIsPositive(n - 1, each);
    }
  }

  function Max(x: int, y: int): int {
    if x < y then y else x
  }

  class Tracker {
    const total: Resources
    var reserved: Resources
    var active: int

    constructor (total: Resources)
      ensures this.total == total && reserved == Resources(0, 0, 0) && active == 0
    {
      this.total := total;
      reserved, active := Resources(0, 0, 0), 0;
    }

    method Available() returns (left: Resources, runs: int)
      ensures Plus(left, reserved) == total && runs == active
    {
      left := Resources(total.cpu - reserved.cpu, total.memory - reserved.memory, total.disk - reserved.disk);
      runs := active;
    }

    predicate HasRoom(r: Resources)
      reads this
    {
      total.cpu - reserved.cpu >= r.cpu && total.memory - reserved.memory >= r.memory && total.disk - reserved.disk >= r.disk
    }

    method Reserve(r: Resources) returns (ok: bool)
      modifies this
      ensures ok == old(HasRoom(r))
      ensures reserved == (if ok then Plus(old(reserved), r) else old(reserved)) && active == old(active) + (if ok then 1 else 0)
    {
      if total.cpu - reserved.cpu < r.cpu || total.memory - reserved.memory < r.memory || total.disk - reserved.disk < r.disk {
        return false;
      }
      reserved := reserved.(cpu := reserved.cpu + r.cpu);
      reserved := reserved.(memory := reserved.memory + r.memory);
      reserved := reserved.(disk := reserved.disk + r.disk);
      active := active + 1;
      return true;
    }

    method Release(r: Resources)
      modifies this
      ensures reserved == Resources(Max(0, old(reserved).cpu - r.cpu), Max(0, old(reserved).memory - r.memory), Max(0, old(reserved).disk - r.disk))
      ensures active == Max(0, old(active) - 1)
    {
      reserved := reserved.(cpu := Max(0, reserved.cpu - r.cpu));
      reserved := reserved.(memory := Max(0, reserved.memory - r.memory));
      reserved := reserved.(disk := Max(0, reserved.disk - r.disk));
      active := Max(0, active - 1);
    }
  }

  /** The journal of a run, as far as the handshake sees it. */
  datatype Lifecycle = Unbound | Bound(cleaned: bool, released: bool)

  /** One accepted claim. */
  class Client {
    var released: bool
    var remoteReleased: bool
    var lifecycle: Lifecycle

    constructor ()
      ensures !released && !remoteReleased && lifecycle == Unbound
    {
      released, remoteReleased, lifecycle := false, false, Unbound;
    }
  }

  class Daemon {
    const tracker: Tracker
    const runResources: Resources
    /** The accepted claims that are not fully released. */
    ghost var open: set<Client>
    ghost var clients: set<Client>

    /** What is reserved is exactly one run for each open claim. */
    ghost predicate Valid()
      reads this, tracker, clients
    {
      && Positive(runResources) && open <= clients
      && tracker.reserved == Times(|open|, runResources) && tracker.active == |open|
      && (forall c :: c in clients ==> (c in open <==> !c.released))
      && (forall c :: c in clients && c.lifecycle.Bound? && c.remoteReleased ==> c.lifecycle.cleaned)
      && (forall c :: c in clients && c.lifecycle.Bound? && c.lifecycle.released ==> c.remoteReleased)
    }

    constructor (total: Resources, runResources: Resources)
      requires Positive(runResources)
      ensures Valid() && open == {} && fresh(tracker) && this.runResources == runResources && clients == {}
    {
      tracker := new Tracker(total);
      this.runResources := runResources;
      open, clients := {}, {};
    }

    /** Reserves locally, then claims; without a claim the reservation is undone. `accepted` is the API's answer. */
    method Claim(accepted: bool) returns (client: Client?)
      requires Valid()
      modifies this`open, this`clients, tracker
      ensures Valid()
      ensures client != null <==> old(tracker.HasRoom(runResources)) && accepted
      ensures client == null ==> open == old(open) && clients == old(clients) && tracker.reserved == old(tracker.reserved)
      ensures client != null ==> fresh(client) && open == old(open) + {client} && clients == old(clients) + {client}
                                 && !client.released && !client.remoteReleased && client.lifecycle.Unbound?
    {
      var reserved := tracker.Reserve(runResources);
      if !reserved {
        return null;
      }
      if !accepted {
        TimesIsPositive(|open|, runResources);
        tracker.Release(runResources);
        return null;
      }
      var c := new Client();
      open, clients := open + {c}, clients + {c};
      return c;
    }

    /** A run is bound to its journal once, before anything was released. */
    method BindResources(client: Client) returns (ok: bool)
      requires Valid() && client in clients
      modifies client`lifecycle
      ensures Valid()
      ensures ok <==> old(client.lifecycle).Unbound? && !client.remoteReleased && !client.released
      ensures client.lifecycle == if ok then Bound(false, false) else old(client.lifecycle)
    {
      if client.lifecycle.Bound? || client.remoteReleased || client.released {
        return false;
      }
      client.lifecycle := Bound(false, false);
      return true;
    }

    /** Physical cleanup of a bound run; `cleans` is its outcome. */
    method Cleanup(client: Client, cleans: bool) returns (ok: bool)
      requires Valid() && client in clients
      modifies client`lifecycle
      ensures Valid()
      ensures ok ==> client.lifecycle.Unbound? || client.released || client.lifecycle.cleaned
      ensures !ok ==> client.lifecycle == old(client.lifecycle)
      ensures client.lifecycle.Bound? <==> old(client.lifecycle).Bound?
      ensures client.lifecycle.Bound? ==> client.lifecycle.released == old(client.lifecycle).released
      ensures ok <==> old(client.lifecycle).Unbound? || client.released || cleans
    {
      if client.lifecycle.Unbound? || client.released {
        return true;
      }
      if !cleans {
        return false;
      }
      client.lifecycle := client.lifecycle.(cleaned := true);
      return true;
    }

    /** Cleanup, the API call, the journal, and last the local reservation. `acknowledged` says that the API confirmed,
        `journaled` that the journal was written. A call that was acknowledged is not repeated. */
    method Release(client: Client, cleans: bool, acknowledged: bool, journaled: bool) returns (ok: bool, called: bool)
      requires Valid() && client in clients
      modifies this`open, tracker, client
      ensures Valid() && clients == old(clients)
      ensures called ==> (client.lifecycle.Bound? ==> client.lifecycle.cleaned) && !old(client.remoteReleased) && !old(client.released)
      ensures client.remoteReleased <==> old(client.remoteReleased) || (called && acknowledged)
      ensures ok <==> client.released
      ensures client.released && !old(client.released) ==> client.remoteReleased && open == old(open) - {client}
      ensures !client.released || old(client.released) ==> open == old(open) && tracker.reserved == old(tracker.reserved)
    {
      called := false;
      ok := Cleanup(client, cleans);
      if !ok {
        assert !client.released;
        return;
      }
      if client.released {
        return true, false;
      }
      if !client.remoteReleased {
        called := true;
        if !acknowledged {
          ok := false;
          return;
        }
        client.remoteReleased := true;
      }
      if client.lifecycle.Bound? {
        if !journaled {
          ok := false;
          return;
        }
        client.lifecycle := client.lifecycle.(released := true);
      }
      assert |open| == |open - {client}| + 1;
      TimesIsPositive(|open| - 1, runResources);
      tracker.Release(runResources);
      open := open - {client};
      client.released := true;
      ok := true;
    }
  }

  /* ---------- settling a failed execution ---------- */

  datatype RunView = RunView(id: nat, status: Status, version: int)

  /** The API's answer to a transition. */
  datatype Answer = Acknowledged(view: RunView) | Conflict | Refused

  const MAX_INT := 0x7FFF_FFFF_FFFF_FFFF

  /** States that an executor's failure may end; all others belong to people, to delivery or are final. */
  predicate Failable(status: Status) {
    status == Provisioning || status == Analyzing || status == Implementing || status == Verifying
  }

  /** Reads the run and fails it where that is the worker's to decide; one conflict is retried. `views` and `answers`
      are what the API says at each attempt, and `requested` the views on which a transition was asked for. What people,
      budgets or a delivery decide is left alone: nothing is requested, and nothing released. */
  method SettleExecutionFailure(claim: RunView, views: nat -> Option<RunView>, answers: nat -> Answer)
    returns (release: bool, requested: seq<RunView>)
    ensures |requested| <= 2 && forall i :: 0 <= i < |requested| ==> views(i) == Some(requested[i])
    ensures |requested| >= 1 <==>
              && views(0).Some? && views(0).value.id == claim.id && views(0).value.version >= 1 && views(0).value.version >= claim.version
              && views(0).value.version != 0x7FFF_FFFF_FFFF_FFFF && views(0).value.status in {Provisioning, Analyzing, Implementing, Verifying}
    ensures |requested| == 2 <==>
              && |requested| >= 1 && answers(0) == Conflict
              && views(1).Some? && views(1).value.id == claim.id && views(1).value.version >= 1 && views(1).value.version >= claim.version
              && views(1).value.version != 0x7FFF_FFFF_FFFF_FFFF && views(1).value.status in {Provisioning, Analyzing, Implementing, Verifying}
    ensures var last := if |requested| >= 1 && answers(0) == Conflict then 1 else 0;
            release <==>
              && views(last).Some? && views(last).value.id == claim.id && views(last).value.version >= 1
              && views(last).value.version >= claim.version
              && (|| views(last).value.status in {Completed, Failed, Cancelled}
                  || (|requested| == last + 1 && answers(last) == Acknowledged(RunView(claim.id, Failed, views(last).value.version + 1))))
  {
    release, requested := false, [];
    var attempt := 0;
    while attempt < 2
      invariant attempt <= 1 && |requested| == attempt
      invariant forall i :: 0 <= i < |requested| ==> views(i) == Some(requested[i])
      invariant attempt == 1 ==>
        && answers(0) == Conflict
        && views(0).Some? && views(0).value.id == claim.id && views(0).value.version >= 1 && views(0).value.version >= claim.version
        && views(0).value.version != MAX_INT && Failable(views(0).value.status)
    {
      var view := views(attempt);
      if view.None? || view.value.id != claim.id || view.value.version < 1 || view.value.version < claim.version {
        return false, requested;
      }
      var current := view.value;
      if Terminal(current.status) {
        return true, requested;
      }
      if !Failable(current.status) || current.version == MAX_INT {
        return false, requested;
      }
      requested := requested + [current];
      match answers(attempt) {
        case Acknowledged(view) =>
          return view.id == current.id && view.status == Failed && view.version == current.version + 1, requested;
        case Conflict =>
          if attempt != 0 {
            return false, requested;
          }
        case Refused =>
          return false, requested;
      }
      attempt := attempt + 1;
    }
  }
}
