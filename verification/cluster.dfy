// The world a reconciler calls into: API server, cache, cloud, users, other keys.
// Every call first lets the environment run, then takes one step of the machine, and
// the object records the run it has taken. A call is only allowed where the machine
// makes the same call with the same argument, so code that calls it follows the machine.
module Clusters {
  import opened Resources
  import opened Machine
  import opened Invariants
  import opened Preservation
  import opened PreservationWrites
  import opened Worlds
  import opened Safety

  datatype GetReply = Found(obj: Obj) | NotFound | GetError

  // How often the reconciles of key failed to make a cloud client.
  ghost function ClientFailures(es: seq<Event>, key: string): nat {
    if es == [] then 0
    else
      var e := es[|es| - 1];
      ClientFailures(es[..|es| - 1], key) + (if e.key == key && e.lab.ClientFails? then 1 else 0)
  }

  // Crashes are left to the machine: a crashed method never returns, and every prefix of
  // its run is a run.
  class Cluster {
    const cfg: Config
    var world: World
    ghost var states: seq<World>
    ghost var events: seq<Event>

    ghost predicate Valid()
      reads this
    {
      IsRun(cfg, states, events) && states[|states| - 1] == world
    }

    constructor (cfg: Config, world: World)
      requires Initial(world)
      ensures Valid() && this.cfg == cfg && this.world == world
    {
      this.cfg := cfg;
      this.world := world;
      this.states := [world];
      this.events := [];
    }

    // Where the reconcile of key stands.
    function At(key: string): Worker
      requires key in world.locals
      reads this
    {
      world.locals[key].worker
    }

    ghost predicate Ready(key: string)
      reads this
    {
      Valid() && key in world.locals
    }

    // The run went on from what it was, and key still exists.
    twostate predicate Went(key: string)
      reads this
    {
      Ready(key) && old(states) <= states && old(events) <= events
    }

    ghost function Failures(key: string): nat
      reads this
    {
      ClientFailures(events, key)
    }

    // No client failed to be made for key meanwhile.
    twostate predicate Unblamed(key: string)
      reads this
    {
      Failures(key) == old(Failures(key))
    }

    lemma Holds(key: string)
      requires Ready(key)
      ensures Inv(cfg.kind, key, world.locals[key], world.shared)
    {
      RunInv(cfg, states, events, |states| - 1);
    }

    // One step of the machine.
    method Take(key: string, lab: Label)
      requires Ready(key) && Shape(world.locals[key]) && Enabled(cfg, key, world.locals[key], world.shared, lab)
      modifies this
      ensures Went(key) && world.locals.Keys == old(world.locals.Keys)
      ensures world.locals[key] == Next(cfg, key, old(world.locals[key]), old(world.shared), lab).0
      ensures world.shared == Next(cfg, key, old(world.locals[key]), old(world.shared), lab).1
      ensures forall k | k in world.locals && k != key :: world.locals[k] == old(world.locals[k])
      ensures Failures(key) == old(Failures(key)) + (if lab.ClientFails? then 1 else 0)
      ensures forall k | k != key :: Failures(k) == old(Failures(k))
    {
      hide Next;
      ghost var w, e := world, Event(key, lab);
      var (l, sh) := Next(cfg, key, world.locals[key], world.shared, lab);
      world := World(world.locals[key := l], sh);
      ghost var n := |events|;
      assert Steps(cfg, w, e, world);
      states, events := states + [world], events + [e];
      assert events[..n] == old(events);
      forall i | 0 <= i < |events| ensures Steps(cfg, states[i], events[i], states[i + 1]) {
        if i < n {
          assert Steps(cfg, old(states)[i], old(events)[i], old(states)[i + 1]);
        }
      }
    }

    // Anything may happen here except a step of key's own reconcile.
    method Interfere(key: string)
      requires Ready(key)
      modifies this
      ensures Went(key) && Unblamed(key) && At(key) == old(At(key))
    {
      var n: nat := *;
      while n > 0
        invariant Went(key) && Unblamed(key) && At(key) == old(At(key))
      {
        var e: Event := *;
        if e.key in world.locals && Shape(world.locals[e.key]) && (e.key != key || !ByWorker(e.lab)) {
          if Enabled(cfg, e.key, world.locals[e.key], world.shared, e.lab) {
            if e.key == key {
              EnvironmentKeepsWorker(cfg, key, world.locals[key], world.shared, e.lab);
            }
            Take(e.key, e.lab);
          }
        }
        n := n - 1;
      }
    }

    // ---- The calls ----

    // A read from the informer cache, however old.
    method Get(key: string) returns (reply: GetReply)
      requires Ready(key) && (At(key).Fetching? || At(key).Refetching?)
      modifies this
      ensures Went(key) && Unblamed(key)
      ensures old(At(key)).Fetching? ==>
                match reply
                case Found(o) => At(key) == Dispatch(cfg.kind, Some(o)) && SpecOk(cfg.kind, o.spec)
                case NotFound => At(key) == Dispatch(cfg.kind, None)
                case GetError => At(key) == Returned(Retry)
      ensures old(At(key)).Refetching? ==>
                match reply
                case Found(o) =>
                  && At(key) == MarkingFailed(o, old(At(key)).cause, old(At(key)).reason)
                  && SpecOk(cfg.kind, o.spec)
                case _ => At(key) == Returned(Retry)
    {
      Interfere(key);
      Holds(key);
      var ok: bool := *;
      var got := world.locals[key].versions[world.locals[key].view];
      if got.Some? {
        assert VersionOk(cfg.kind, key, world.shared, world.locals[key].view, got.value);
      }
      Take(key, CallGet(ok));
      reply := if !ok then GetError else if got.None? then NotFound else Found(got.value);
    }

    // A cloud client is at hand.
    method UseClient(key: string)
      requires Ready(key) && At(key).NeedClient?
      modifies this
      ensures Went(key) && Unblamed(key) && At(key) == WithClient(old(At(key)).mem)
    {
      Holds(key);
      Take(key, ClientReady);
    }

    // Make a cloud client. blame is the text an error is reported with.
    method NewClient(key: string, blame: string) returns (err: Option<string>)
      requires Ready(key) && At(key).NeedClient? && blame != ""
      modifies this
      ensures Went(key) && (Unblamed(key) <==> err.None?)
      ensures err.None? ==> At(key) == old(At(key))
      ensures err.Some? ==> At(key) == Refetching(None, blame + err.value)
    {
      Interfere(key);
      Holds(key);
      var ok: bool := *;
      if ok {
        err := None;
      } else {
        var e: string := *;
        Take(key, ClientFails(blame + e));
        err := Some(e);
      }
    }

    // The same while deleting, where failure just ends the reconcile.
    method NewClientForDeletion(key: string) returns (ok: bool)
      requires Ready(key) && At(key).Destroying?
      modifies this
      ensures Went(key) && (ok ==> Unblamed(key)) && At(key) == if ok then old(At(key)) else Returned(Retry)
    {
      Interfere(key);
      Holds(key);
      ok := *;
      if !ok {
        Take(key, ClientFails("no client"));
      }
    }

    lemma Acknowledged(key: string)
      requires Ready(key) && Writing(At(key)) && Commits(cfg.kind, world.locals[key], Reply)
      ensures var w := At(key); var v := Committed(cfg.kind, w, w.mem, world.shared.clock);
        && Last(world.locals[key].versions) == Some(w.mem)
        && (WritesStatus(w) ==> v.Some? && v.value == Sent(cfg.kind, w).(rv := v.value.rv))
    {
      Holds(key);
      CommitFromStored(cfg.kind, key, world.locals[key], world.shared, Reply);
    }

    // A write of either kind; the reply carries the server's copy.
    method Write(key: string, sent: Obj) returns (ok: bool, copy: Option<Obj>)
      requires Ready(key) && Writing(At(key)) && sent == Sent(cfg.kind, At(key))
      modifies this
      ensures Went(key) && Unblamed(key)
      ensures ok ==> At(key) == AfterWrite(cfg.kind, old(At(key)), copy)
      ensures ok && WritesStatus(old(At(key))) ==> copy.Some? && copy.value == sent.(rv := copy.value.rv)
      ensures !ok ==> At(key) == Returned(Retry)
    {
      hide Next, Sent, Committed, AfterWrite, Facts, Books, WorkerOk, Ledger, Awake, IsRun;
      Interfere(key);
      Holds(key);
      var out: WriteOutcome := *;
      var l, sh := world.locals[key], world.shared;
      if out.Reply? && !Conflict(Last(l.versions), sent) {
        Acknowledged(key);
      }
      StepVersions(cfg, key, l, sh, CallWrite(out));
      Take(key, CallWrite(out));
      ok := out.Reply? && !Conflict(Last(l.versions), sent);
      copy := if ok then Committed(cfg.kind, l.worker, Last(l.versions).value, sh.clock) else None;
    }

    // PUT on the main resource.
    method Update(key: string, sent: Obj) returns (ok: bool)
      requires Ready(key) && Writing(At(key)) && !WritesStatus(At(key)) && sent == Sent(cfg.kind, At(key))
      modifies this
      ensures Went(key) && Unblamed(key) && At(key) == Returned(if ok then Stop else Retry)
    {
      var copy;
      ok, copy := Write(key, sent);
    }

    // PUT on the status subresource.
    method StatusUpdate(key: string, sent: Obj) returns (ok: bool, copy: Obj)
      requires Ready(key) && WritesStatus(At(key)) && sent == Sent(cfg.kind, At(key))
      modifies this
      ensures Went(key) && Unblamed(key)
      ensures ok ==> At(key) == AfterWrite(cfg.kind, old(At(key)), Some(copy)) && copy == sent.(rv := copy.rv)
      ensures !ok ==> At(key) == Returned(Retry)
    {
      var reply;
      ok, reply := Write(key, sent);
      copy := if ok then reply.value else sent;
    }

    // Create the cloud resource.
    method Create(key: string, request: Request, blame: string) returns (id: Option<string>, err: string)
      requires Ready(key) && At(key).Launching? && request == cfg.request(At(key).mem.spec) && blame != ""
      modifies this
      ensures Went(key) && Unblamed(key)
      ensures id.Some? ==> At(key) == Recording(old(At(key)).mem, id.value)
      ensures id.None? ==> At(key) == Refetching(Some(old(At(key)).mem), blame + err)
    {
      hide IsRun, Facts, Books, WorkerOk, Ledger, Awake;
      Interfere(key);
      Holds(key);
      var out: LaunchOutcome := *;
      var newId: string := *;
      var life: Life := *;
      err := *;
      if newId == "" || newId in world.shared.cloud {
        newId := FreshId(world.shared.cloud.Keys);
      }
      ghost var l, sh := world.locals[key], world.shared;
      Take(key, CallLaunch(out, newId, life, blame + err));
      id := if out.LaunchOk? then Some(newId) else None;
      match out case LaunchOk => case LaunchHidden => case LaunchError =>
    }

    // Ask the cloud for the lifecycle state of a resource.
    method Poll(key: string, id: string) returns (life: Option<Life>)
      requires Ready(key) && At(key).Polling? && id == At(key).mem.status.id
      modifies this
      ensures Went(key) && Unblamed(key)
      ensures life.Some? ==> At(key) == Syncing(old(At(key)).mem, life.value)
      ensures life.None? ==> At(key) == Returned(Retry)
    {
      Interfere(key);
      RecordedIdKnown(key);
      var ok: bool := *;
      life := if ok then Some(world.shared.cloud[id].life) else None;
      Take(key, CallPoll(ok));
    }

    lemma RecordedIdKnown(key: string)
      requires Ready(key) && (At(key).Polling? || At(key).Destroying?)
      ensures Shape(world.locals[key]) && At(key).mem.status.id in world.shared.cloud
    {
      Holds(key);
      var l := world.locals[key];
      var i :| 0 <= i < |l.versions| && l.versions[i] == Some(l.worker.mem);
      assert VersionOk(cfg.kind, key, world.shared, i, l.worker.mem);
    }

    // Have the cloud destroy a resource.
    method Terminate(key: string, id: string) returns (ok: bool)
      requires Ready(key) && At(key).Destroying? && id == At(key).mem.status.id
      modifies this
      ensures Went(key) && Unblamed(key)
      ensures At(key) == if ok then Unfinalizing(old(At(key)).mem) else Returned(Retry)
    {
      Interfere(key);
      RecordedIdKnown(key);
      var out: TerminateOutcome := *;
      Take(key, CallTerminate(out));
      ok := out.TermOk?;
    }
  }

  // An ID the cloud has not handed out: longer than all it has.
  method FreshId(used: set<string>) returns (id: string)
    ensures id != "" && id !in used
  {
    id := "i";
    var rest := used;
    while rest != {}
      invariant rest <= used && id != ""
      invariant forall u | u in used - rest :: |u| < |id|
      decreases rest
    {
      var u :| u in rest;
      if |id| <= |u| {
        id := u + "i";
      }
      rest := rest - {u};
    }
  }
}
