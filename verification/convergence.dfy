// Left in peace, an object reaches its steady state and stays there.
module Convergence {
  import opened Resources
  import opened Machine
  import opened Invariants
  import opened Preservation
  import opened PreservationWrites

  // The state after a list of steps; None if one of them is not enabled.
  ghost function Drive(cfg: Config, key: string, l: Local, sh: Shared, labs: seq<Label>): Option<(Local, Shared)>
    decreases |labs|
  {
    if labs == [] then Some((l, sh))
    else if Shape(l) && Enabled(cfg, key, l, sh, labs[0]) then
      var (l', sh') := Next(cfg, key, l, sh, labs[0]);
      Drive(cfg, key, l', sh', labs[1..])
    else None
  }

  // ---- One undisturbed round ----

  // Lifecycle states on the way to the ready one, and how many moves are left.
  ghost predicate OnTrack(kind: Kind, life: Life) {
    match kind
    case Instance => life in {ProvisioningState, StartingState, RunningState}
    case Policy => life in {ProvisioningState, AvailableState}
  }

  ghost function Distance(kind: Kind, life: Life): nat {
    if !OnTrack(kind, life) then 0
    else
      match life
      case ProvisioningState => if kind == Instance then 2 else 1
      case StartingState => 1
      case _ => 0
  }

  ghost function Advance(kind: Kind, life: Life): Life {
    match kind
    case Instance => if life == ProvisioningState then StartingState else RunningState
    case Policy => AvailableState
  }

  ghost function ReadyLife(kind: Kind): Life {
    if kind == Instance then RunningState else AvailableState
  }

  ghost function ReadyPhase(kind: Kind): Phase {
    if kind == Instance then Running else Active
  }

  // Idle, for an object neither deleted nor failed whose resource, if it has one, is on
  // track. Whatever is due next, and however old the cache is, is left open.
  ghost predicate AtPeace(kind: Kind, key: string, l: Local, sh: Shared) {
    && Inv(kind, key, l, sh)
    && l.worker.Idle?
    && Last(l.versions).Some?
    && var o := Last(l.versions).value;
       && !o.deleting && !FailedForGeneration(o)
       && (o.status.id != "" ==> o.status.id in sh.cloud && OnTrack(kind, sh.cloud[o.status.id].life))
  }

  // What wakes the key: a pending watch event if the cache is behind, else the queue as it
  // is, else the requeue timer, else the retry of an error. Nothing may be due at all.
  ghost function Wake(l: Local): seq<Label> {
    if l.view + 1 < |l.versions| then [CacheMove(|l.versions| - 1)]
    else if l.queued then []
    else if l.timer then [TimerFires]
    else if l.retry then [RetryFires]
    else []
  }

  ghost function Rouse(l: Local): Local {
    if l.view + 1 < |l.versions| then l.(view := |l.versions| - 1, queued := true)
    else if l.queued then l
    else if l.timer then l.(timer := false, queued := true)
    else if l.retry then l.(retry := false, queued := true)
    else l
  }

  ghost predicate Roused(kind: Kind, key: string, l: Local, sh: Shared) {
    AtPeace(kind, key, l, sh) && l.queued && l.view == |l.versions| - 1
  }

  // Woken, with a fresh cache.
  ghost predicate Attentive(l: Local) {
    Shape(l) && l.worker.Idle? && l.queued && l.view == |l.versions| - 1
  }

  // Woken, with a fresh cache, for an object that is to be reconciled.
  ghost predicate Ready(l: Local) {
    && Attentive(l)
    && Last(l.versions).Some? && !Last(l.versions).value.deleting && !FailedForGeneration(Last(l.versions).value)
  }

  // The calls of a reconcile in which nothing fails.
  ghost function Calls(kind: Kind, o: Obj, id: string, life: Life): seq<Label> {
    [Dequeue] + ([CallGet(true)] + (
        if Finalizer(kind) !in o.finalizers then WRITE
        else if FailedForGeneration(o) then [Finish]
        else if o.status.id == "" then
          [ClientReady] + ([CallWrite(Reply)] + ([CallLaunch(LaunchOk, id, life, "unused")] + WRITE))
        else [ClientReady] + ([CallPoll(true)] + WRITE)))
  }

  ghost const WRITE: seq<Label> := [CallWrite(Reply)] + [Finish]

  // Strictly falls with every round until nothing is left to do: finalizer missing, ID
  // missing, cloud distance, status out of date, in this order.
  ghost function Measure(kind: Kind, l: Local, sh: Shared): nat {
    if Last(l.versions).None? then 0
    else
      var o := Last(l.versions).value;
      if Finalizer(kind) !in o.finalizers then 7
      else if o.status.id !in sh.cloud then 6
      else 2 * Distance(kind, sh.cloud[o.status.id].life)
           + (if o.status.phase == ReadyPhase(kind) && o.status.observed == o.generation then 0 else 1)
  }

  // After the reconcile the cloud moves one state on.
  ghost function Settling(kind: Kind, l: Local, sh: Shared): seq<Label> {
    var st := Last(l.versions);
    if st.Some? && st.value.status.id in sh.cloud && Distance(kind, sh.cloud[st.value.status.id].life) > 0
    then [CloudMove(st.value.status.id, Advance(kind, sh.cloud[st.value.status.id].life))] else []
  }

  ghost function Reconciled(cfg: Config, key: string, l: Local, sh: Shared, id: string, life: Life)
    : Option<(Local, Shared)>
  {
    if Last(l.versions).None? then None else Drive(cfg, key, l, sh, Calls(cfg.kind, Last(l.versions).value, id, life))
  }

  // A reconcile and the cloud's move, from a woken key.
  ghost function Turn(cfg: Config, key: string, l: Local, sh: Shared, id: string, life: Life)
    : Option<(Local, Shared)>
  {
    var r := Reconciled(cfg, key, l, sh, id, life);
    if r.None? then None else Drive(cfg, key, r.value.0, r.value.1, Settling(cfg.kind, r.value.0, r.value.1))
  }

  // A turn of the key once it is woken; nothing happens if nothing is due.
  ghost function Round(cfg: Config, key: string, l: Local, sh: Shared, id: string, life: Life)
    : Option<(Local, Shared)>
  {
    var r := Drive(cfg, key, l, sh, Wake(l));
    if r.None? || !r.value.0.queued then r else Turn(cfg, key, r.value.0, r.value.1, id, life)
  }

  lemma DriveStep(cfg: Config, key: string, l: Local, sh: Shared, lab: Label, rest: seq<Label>)
    requires Shape(l) && Enabled(cfg, key, l, sh, lab)
    ensures var (l', sh') := Next(cfg, key, l, sh, lab);
      Drive(cfg, key, l, sh, [lab] + rest) == Drive(cfg, key, l', sh', rest)
  {
    assert ([lab] + rest)[1..] == rest;
  }

  lemma DriveLast(cfg: Config, key: string, l: Local, sh: Shared, lab: Label)
    requires Shape(l) && Enabled(cfg, key, l, sh, lab)
    ensures Drive(cfg, key, l, sh, [lab]) == Some(Next(cfg, key, l, sh, lab))
  {
    DriveStep(cfg, key, l, sh, lab, []);
    assert [lab] + [] == [lab];
  }

  lemma {:induction false} DriveConcat(cfg: Config, key: string, l: Local, sh: Shared, a: seq<Label>, b: seq<Label>)
    requires Drive(cfg, key, l, sh, a).Some?
    ensures var r := Drive(cfg, key, l, sh, a).value;
            Drive(cfg, key, l, sh, a + b) == Drive(cfg, key, r.0, r.1, b)
    decreases |a|
  {
    hide Next;
    if a == [] {
      assert a + b == b;
    } else {
      var (l', sh') := Next(cfg, key, l, sh, a[0]);
      assert (a + b)[1..] == a[1..] + b;
      DriveConcat(cfg, key, l', sh', a[1..], b);
    }
  }

  // ---- The three kinds of reconcile ----

  ghost function Woken(l: Local, w: Worker): Local {
    l.(queued := false, worker := w)
  }

  lemma Opening(cfg: Config, key: string, l: Local, sh: Shared, rest: seq<Label>)
    requires Attentive(l)
    ensures Drive(cfg, key, l, sh, [Dequeue] + ([CallGet(true)] + rest))
         == Drive(cfg, key, Woken(l, Dispatch(cfg.kind, Last(l.versions))), sh, rest)
  {
    hide Drive, Dispatch;
    DriveStep(cfg, key, l, sh, Dequeue, [CallGet(true)] + rest);
    DriveStep(cfg, key, Woken(l, Fetching), sh, CallGet(true), rest);
  }

  lemma OpeningClient(cfg: Config, key: string, l: Local, sh: Shared, rest: seq<Label>)
    requires Ready(l) && Finalizer(cfg.kind) in Last(l.versions).value.finalizers
    ensures Drive(cfg, key, l, sh, [Dequeue] + ([CallGet(true)] + ([ClientReady] + rest)))
         == Drive(cfg, key, Woken(l, WithClient(Last(l.versions).value)), sh, rest)
  {
    Opening(cfg, key, l, sh, [ClientReady] + rest);
    DriveStep(cfg, key, Woken(l, NeedClient(Last(l.versions).value)), sh, ClientReady, rest);
  }

  // A write from the stored version, acknowledged.
  ghost function Wrote(kind: Kind, l: Local, sh: Shared): Local
    requires Writing(l.worker)
  {
    var v := Committed(kind, l.worker, l.worker.mem, sh.clock);
    Push(l, v).(worker := AfterWrite(kind, l.worker, v))
  }

  lemma WriteStep(cfg: Config, key: string, l: Local, sh: Shared, rest: seq<Label>)
    requires Shape(l) && Writing(l.worker) && Last(l.versions) == Some(l.worker.mem)
    ensures Drive(cfg, key, l, sh, [CallWrite(Reply)] + rest)
         == Drive(cfg, key, Wrote(cfg.kind, l, sh), Tick(l, sh,
             Committed(cfg.kind, l.worker, l.worker.mem, sh.clock)), rest)
  {
    assert Sent(cfg.kind, l.worker).rv == l.worker.mem.rv && Sent(cfg.kind, l.worker).uid == l.worker.mem.uid by {
      match l.worker
      case AddingFinalizer(_) =>
      case Fencing(_) =>
      case Recording(_, _) =>
      case MarkingFailed(_, _, _) =>
      case Syncing(_, _) =>
      case Unfinalizing(_) =>
    }
    DriveStep(cfg, key, l, sh, CallWrite(Reply), rest);
  }

  lemma FinishStep(cfg: Config, key: string, l: Local, sh: Shared)
    requires Shape(l) && l.worker.Returned?
    ensures Drive(cfg, key, l, sh, [Finish]) == Some((NextFinish(l), sh))
  {
    DriveLast(cfg, key, l, sh, Finish);
  }

  // The last write of a reconcile and its return.
  lemma Closing(cfg: Config, key: string, l: Local, sh: Shared)
    requires Shape(l) && Writing(l.worker) && !l.worker.Fencing? && Last(l.versions) == Some(l.worker.mem)
    ensures var v := Committed(cfg.kind, l.worker, l.worker.mem, sh.clock);
            var r := Drive(cfg, key, l, sh, WRITE);
      && r.Some? && r.value.0.worker.Idle? && Shape(r.value.0) && r.value.1 == Tick(l, sh, v)
      && r.value.0.versions == Push(l, v).versions && Last(r.value.0.versions) == v
      && (l.worker.Syncing? || l.worker.Recording? ==> r.value.0.timer)
  {
    hide Drive, Committed;
    var l' := Wrote(cfg.kind, l, sh);
    var sh' := Tick(l, sh, Committed(cfg.kind, l.worker, l.worker.mem, sh.clock));
    WriteStep(cfg, key, l, sh, [Finish]);
    FinishStep(cfg, key, l', sh');
  }

  ghost predicate Ends(r: Option<(Local, Shared)>, v: Option<Obj>, cloud: map<string, Resource>) {
    r.Some? && r.value.0.worker.Idle? && Shape(r.value.0) && Last(r.value.0.versions) == v && r.value.1.cloud == cloud
  }

  lemma ReconcileFinalizer(cfg: Config, key: string, l: Local, sh: Shared, id: string, life: Life)
    requires Roused(cfg.kind, key, l, sh) && Finalizer(cfg.kind) !in Last(l.versions).value.finalizers
    ensures var o := Last(l.versions).value;
      Ends(Reconciled(cfg, key, l, sh, id, life), Committed(cfg.kind, AddingFinalizer(o), o, sh.clock), sh.cloud)
  {
    hide Inv, Drive, Committed;
    var o := Last(l.versions).value;
    Opening(cfg, key, l, sh, WRITE);
    Closing(cfg, key, Woken(l, AddingFinalizer(o)), sh);
  }

  lemma ReconcileSync(cfg: Config, key: string, l: Local, sh: Shared, id: string, life: Life)
    requires Ready(l) && Last(l.versions).value.status.id != "" && Last(l.versions).value.status.id in sh.cloud
    requires Finalizer(cfg.kind) in Last(l.versions).value.finalizers
    ensures var o, r := Last(l.versions).value, Reconciled(cfg, key, l, sh, id, life);
            var v := Committed(cfg.kind, Syncing(o, sh.cloud[o.status.id].life), o, sh.clock);
      && Ends(r, v, sh.cloud) && r.value.0.timer
      && r.value.0.versions == Push(l, v).versions && r.value.1 == Tick(l, sh, v)
  {
    hide Inv, Drive, Committed;
    var o := Last(l.versions).value;
    OpeningClient(cfg, key, l, sh, [CallPoll(true)] + WRITE);
    PollStep(cfg, key, Woken(l, Polling(o)), sh, WRITE);
    Closing(cfg, key, Woken(l, Syncing(o, sh.cloud[o.status.id].life)), sh);
  }

  lemma PollStep(cfg: Config, key: string, l: Local, sh: Shared, rest: seq<Label>)
    requires Shape(l) && l.worker.Polling? && l.worker.mem.status.id in sh.cloud
    ensures Drive(cfg, key, l, sh, [CallPoll(true)] + rest)
         == Drive(cfg, key, l.(worker := Syncing(l.worker.mem, sh.cloud[l.worker.mem.status.id].life)), sh, rest)
  {
    DriveStep(cfg, key, l, sh, CallPoll(true), rest);
  }

  ghost function Launched(cfg: Config, l: Local, sh: Shared, id: string, life: Life): (Local, Shared)
    requires l.worker.Launching?
  {
    NextLaunch(cfg, l, sh, CallLaunch(LaunchOk, id, life, "unused"))
  }

  lemma LaunchStep(cfg: Config, key: string, l: Local, sh: Shared, id: string, life: Life, rest: seq<Label>)
    requires Shape(l) && l.worker.Launching? && id != "" && id !in sh.cloud
    ensures var (l', sh') := Launched(cfg, l, sh, id, life);
      && Drive(cfg, key, l, sh, [CallLaunch(LaunchOk, id, life, "unused")] + rest) == Drive(cfg, key, l', sh', rest)
      && l' == l.(worker := Recording(l.worker.mem, id), accounts := l'.accounts)
      && id in sh'.cloud && sh'.cloud[id].life == life && sh' == sh.(cloud := sh'.cloud)
      && sh'.cloud == sh.cloud[id := sh'.cloud[id]]
  {
    DriveStep(cfg, key, l, sh, CallLaunch(LaunchOk, id, life, "unused"), rest);
  }

  // The object as the fence leaves it.
  ghost function Fence(kind: Kind, o: Obj, rv: nat): Obj {
    Committed(kind, Fencing(o), o, rv).value
  }

  // From the committed fence to the recorded ID.
  lemma LaunchAndRecord(cfg: Config, key: string, l: Local, sh: Shared, id: string, life: Life)
    requires Shape(l) && l.worker.Launching? && Last(l.versions) == Some(l.worker.mem) && id != "" && id !in sh.cloud
    ensures var r := Drive(cfg, key, l, sh, [CallLaunch(LaunchOk, id, life, "unused")] + WRITE);
            var w := Recording(l.worker.mem, id);
      && r.Some? && id in r.value.1.cloud && r.value.1.cloud[id].life == life
      && Ends(r, Committed(cfg.kind, w, w.mem, sh.clock), r.value.1.cloud)
  {
    hide Drive, Committed, NextLaunch;
    LaunchStep(cfg, key, l, sh, id, life, WRITE);
    var (l', sh') := Launched(cfg, l, sh, id, life);
    Closing(cfg, key, l', sh');
  }

  lemma ReconcileLaunch(cfg: Config, key: string, l: Local, sh: Shared, id: string, life: Life)
    requires Roused(cfg.kind, key, l, sh) && Last(l.versions).value.status.id == ""
    requires Finalizer(cfg.kind) in Last(l.versions).value.finalizers && id != "" && id !in sh.cloud
    ensures var o, r := Last(l.versions).value, Reconciled(cfg, key, l, sh, id, life);
      && r.Some? && id in r.value.1.cloud && r.value.1.cloud[id].life == life
      && exists rv :: Ends(r, RecordedAs(cfg.kind, Fence(cfg.kind, o, sh.clock), id, rv), r.value.1.cloud)
  {
    hide Inv, Drive, Committed;
    var o := Last(l.versions).value;
    var rest := [CallLaunch(LaunchOk, id, life, "unused")] + WRITE;
    var l1 := Woken(l, Fencing(o));
    OpeningClient(cfg, key, l, sh, [CallWrite(Reply)] + rest);
    WriteStep(cfg, key, l1, sh, rest);
    FenceSome(cfg.kind, o, sh.clock);
    FenceThenLaunch(cfg, key, l1, sh, id, life);
  }

  ghost function RecordedAs(kind: Kind, o: Obj, id: string, rv: nat): Option<Obj> {
    Committed(kind, Recording(o, id), o, rv)
  }

  lemma FenceThenLaunch(cfg: Config, key: string, l: Local, sh: Shared, id: string, life: Life)
    requires Shape(l) && l.worker.Fencing? && Last(l.versions) == Some(l.worker.mem) && id != "" && id !in sh.cloud
    ensures var o, v := l.worker.mem, Committed(cfg.kind, l.worker, l.worker.mem, sh.clock);
            var r := Drive(cfg, key, Wrote(cfg.kind, l, sh), Tick(l, sh, v),
                [CallLaunch(LaunchOk, id, life, "unused")] + WRITE);
      && r.Some? && id in r.value.1.cloud && r.value.1.cloud[id].life == life
      && exists rv :: Ends(r, RecordedAs(cfg.kind, Fence(cfg.kind, o, sh.clock), id, rv), r.value.1.cloud)
  {
    hide Drive, Committed;
    FenceSome(cfg.kind, l.worker.mem, sh.clock);
    var l', sh' := Wrote(cfg.kind, l, sh), Tick(l, sh, Committed(cfg.kind, l.worker, l.worker.mem, sh.clock));
    LaunchAndRecord(cfg, key, l', sh', id, life);
    var r := Drive(cfg, key, l', sh', [CallLaunch(LaunchOk, id, life, "unused")] + WRITE);
    assert Ends(r, RecordedAs(cfg.kind, Fence(cfg.kind, l.worker.mem, sh.clock), id, sh'.clock), r.value.1.cloud);
  }

  lemma FenceSome(kind: Kind, o: Obj, rv: nat)
    ensures Committed(kind, Fencing(o), o, rv).Some?
  {
  }

  // ---- A round makes progress or changes nothing ----

  lemma {:induction false} DriveKeeps(cfg: Config, key: string, l: Local, sh: Shared, labs: seq<Label>)
    requires Inv(cfg.kind, key, l, sh)
    ensures var r := Drive(cfg, key, l, sh, labs); r.Some? ==> Inv(cfg.kind, key, r.value.0, r.value.1)
    decreases |labs|
  {
    hide Next, Inv;
    if labs != [] && Shape(l) && Enabled(cfg, key, l, sh, labs[0]) {
      StepKeeps(cfg, key, l, sh, labs[0]);
      var (l', sh') := Next(cfg, key, l, sh, labs[0]);
      DriveKeeps(cfg, key, l', sh', labs[1..]);
    }
  }

  lemma SettlingStep(cfg: Config, key: string, l: Local, sh: Shared)
    requires Inv(cfg.kind, key, l, sh) && l.worker.Idle? && Last(l.versions).Some?
    requires var o := Last(l.versions).value;
      && !o.deleting && !FailedForGeneration(o)
      && (o.status.id != "" ==> o.status.id in sh.cloud && OnTrack(cfg.kind, sh.cloud[o.status.id].life))
    ensures var r := Drive(cfg, key, l, sh, Settling(cfg.kind, l, sh)); var id := Last(l.versions).value.status.id;
      && r.Some? && AtPeace(cfg.kind, key, r.value.0, r.value.1) && r.value.0 == l
      && (id in sh.cloud ==>
            && id in r.value.1.cloud
            && var d := Distance(cfg.kind, sh.cloud[id].life);
               && Distance(cfg.kind, r.value.1.cloud[id].life) == (if d > 0 then d - 1 else 0)
               && (d == 0 ==> r.value.1 == sh))
      && (id !in sh.cloud ==> r.value.1 == sh)
  {
    var o, id := Last(l.versions).value, Last(l.versions).value.status.id;
    DriveKeeps(cfg, key, l, sh, Settling(cfg.kind, l, sh));
    if id in sh.cloud && Distance(cfg.kind, sh.cloud[id].life) > 0 {
      hide Inv, Next, Drive;
      CloudStep(cfg, key, l, sh, id);
    }
  }

  lemma CloudStep(cfg: Config, key: string, l: Local, sh: Shared, id: string)
    requires Inv(cfg.kind, key, l, sh) && Last(l.versions).Some? && Last(l.versions).value.status.id == id
    requires id in sh.cloud
    ensures Drive(cfg, key, l, sh, [CloudMove(id, Advance(cfg.kind, sh.cloud[id].life))])
         == Some((l, NextCloudMove(cfg.kind, sh, id, Advance(cfg.kind, sh.cloud[id].life))))
  {
    assert VersionOk(cfg.kind, key, sh, |l.versions| - 1, Last(l.versions).value);
    DriveLast(cfg, key, l, sh, CloudMove(id, Advance(cfg.kind, sh.cloud[id].life)));
  }

  // What the last write of each kind of reconcile stores.
  lemma StoredByFinalizer(kind: Kind, o: Obj, rv: nat)
    requires !o.deleting && !FailedForGeneration(o)
    ensures var v := Committed(kind, AddingFinalizer(o), o, rv);
      v.Some? && !v.value.deleting && !FailedForGeneration(v.value) && v.value.status == o.status
          && Finalizer(kind) in v.value.finalizers
  {
  }

  lemma StoredByLaunch(kind: Kind, o: Obj, id: string, rv0: nat, rv: nat)
    requires !o.deleting && Finalizer(kind) in o.finalizers
    ensures var v := RecordedAs(kind, Fence(kind, o, rv0), id, rv);
      v.Some? && !v.value.deleting && !FailedForGeneration(v.value) && v.value.status.id == id
          && Finalizer(kind) in v.value.finalizers
  {
  }

  lemma StoredBySync(kind: Kind, o: Obj, life: Life, rv: nat)
    requires !o.deleting && OnTrack(kind, life) && Finalizer(kind) in o.finalizers
    ensures var v := Committed(kind, Syncing(o, life), o, rv);
      && v.Some? && !v.value.deleting && !FailedForGeneration(v.value) && v.value.status.id == o.status.id
      && Finalizer(kind) in v.value.finalizers
      && (Distance(kind, life) == 0 ==>
            v.value.status.phase == ReadyPhase(kind) && v.value.status.observed == v.value.generation)
      && (Distance(kind, life) == 0 && o.status.phase == ReadyPhase(kind) && o.status.observed == o.generation ==>
            v.value == o)
  {
  }

  ghost predicate Converged(kind: Kind, l: Local, sh: Shared) {
    Measure(kind, l, sh) == 0
  }

  // What RoundProgress promises.
  ghost predicate Progress(kind: Kind, key: string, l: Local, sh: Shared, id: string, r: Option<(Local, Shared)>) {
    && r.Some? && AtPeace(kind, key, r.value.0, r.value.1)
    && (Measure(kind, l, sh) > 0 ==> Measure(kind, r.value.0, r.value.1) < Measure(kind, l, sh))
    && (Measure(kind, l, sh) == 0 ==> r.value.0.versions == l.versions && r.value.1 == sh && r.value.0.timer)
    && (Measure(kind, r.value.0, r.value.1) >= 6 ==> id !in r.value.1.cloud)
  }

  lemma FinalizerTurn(cfg: Config, key: string, l: Local, sh: Shared, id: string, life: Life)
    requires Roused(cfg.kind, key, l, sh) && Finalizer(cfg.kind) !in Last(l.versions).value.finalizers
        && id !in sh.cloud
    ensures Progress(cfg.kind, key, l, sh, id, Turn(cfg, key, l, sh, id, life))
  {
    var o := Last(l.versions).value;
    DriveKeeps(cfg, key, l, sh, Calls(cfg.kind, o, id, life));
    var r := Reconciled(cfg, key, l, sh, id, life);
    StoredFinalizer(cfg.kind, key, l, sh);
    hide Inv, Drive, Committed, Calls, FailedForGeneration, Settling, Finalizer;
    ReconcileFinalizer(cfg, key, l, sh, id, life);
    StoredByFinalizer(cfg.kind, o, sh.clock);
    SettlingStep(cfg, key, r.value.0, r.value.1);
  }

  lemma LaunchTurn(cfg: Config, key: string, l: Local, sh: Shared, id: string, life: Life)
    requires Roused(cfg.kind, key, l, sh) && OnTrack(cfg.kind, life) && id != "" && id !in sh.cloud
    requires Finalizer(cfg.kind) in Last(l.versions).value.finalizers && Last(l.versions).value.status.id == ""
    ensures Progress(cfg.kind, key, l, sh, id, Turn(cfg, key, l, sh, id, life))
  {
    var o := Last(l.versions).value;
    DriveKeeps(cfg, key, l, sh, Calls(cfg.kind, o, id, life));
    var r := Reconciled(cfg, key, l, sh, id, life);
    StoredFinalizer(cfg.kind, key, l, sh);
    hide Inv, Drive, Committed, Calls, FailedForGeneration, Settling, Finalizer;
    ReconcileLaunch(cfg, key, l, sh, id, life);
    var rv :| Ends(r, RecordedAs(cfg.kind, Fence(cfg.kind, o, sh.clock), id, rv), r.value.1.cloud);
    StoredByLaunch(cfg.kind, o, id, sh.clock, rv);
    SettlingStep(cfg, key, r.value.0, r.value.1);
  }

  lemma SyncTurn(cfg: Config, key: string, l: Local, sh: Shared, id: string, life: Life)
    requires Roused(cfg.kind, key, l, sh) && Last(l.versions).value.status.id != ""
    ensures Progress(cfg.kind, key, l, sh, id, Turn(cfg, key, l, sh, id, life))
  {
    var o := Last(l.versions).value;
    DriveKeeps(cfg, key, l, sh, Calls(cfg.kind, o, id, life));
    var r := Reconciled(cfg, key, l, sh, id, life);
    StoredFinalizer(cfg.kind, key, l, sh);
    hide Inv, Drive, Committed, Calls, FailedForGeneration, Settling, Finalizer;
    ReconcileSync(cfg, key, l, sh, id, life);
    StoredBySync(cfg.kind, o, sh.cloud[o.status.id].life, sh.clock);
    SettlingStep(cfg, key, r.value.0, r.value.1);
  }

  lemma TurnProgress(cfg: Config, key: string, l: Local, sh: Shared, id: string, life: Life)
    requires Roused(cfg.kind, key, l, sh) && OnTrack(cfg.kind, life)
    requires id != "" && (Measure(cfg.kind, l, sh) >= 6 ==> id !in sh.cloud)
    ensures Progress(cfg.kind, key, l, sh, id, Turn(cfg, key, l, sh, id, life))
  {
    hide Inv, Turn, Progress;
    var o := Last(l.versions).value;
    StoredFinalizer(cfg.kind, key, l, sh);
    if Finalizer(cfg.kind) !in o.finalizers { FinalizerTurn(cfg, key, l, sh, id, life); }
    else if o.status.id == "" { LaunchTurn(cfg, key, l, sh, id, life); }
    else { SyncTurn(cfg, key, l, sh, id, life); }
  }

  // Idle, for an object that is not deleting.
  ghost predicate Resting(kind: Kind, key: string, l: Local, sh: Shared) {
    Inv(kind, key, l, sh) && l.worker.Idle? && Last(l.versions).Some? && !Last(l.versions).value.deleting
  }

  lemma WakesUp(cfg: Config, key: string, l: Local, sh: Shared)
    requires Resting(cfg.kind, key, l, sh)
    ensures Drive(cfg, key, l, sh, Wake(l)) == Some((Rouse(l), sh))
    ensures Resting(cfg.kind, key, Rouse(l), sh) && Rouse(l).versions == l.versions
    ensures Rouse(l).queued ==> Attentive(Rouse(l))
    ensures !FailedForGeneration(Last(l.versions).value) ==> Rouse(l).queued
  {
    DriveKeeps(cfg, key, l, sh, Wake(l));
    hide Facts, Books, Ledger, WorkerOk, Drive;
    if l.view + 1 < |l.versions| {
      DriveLast(cfg, key, l, sh, CacheMove(|l.versions| - 1));
    } else if l.queued {
      DriveNone(cfg, key, l, sh);
    } else if l.timer {
      DriveLast(cfg, key, l, sh, TimerFires);
    } else if l.retry {
      DriveLast(cfg, key, l, sh, RetryFires);
    } else {
      DriveNone(cfg, key, l, sh);
    }
  }

  // Something that can wake the key is always due: with a fresh cache and an empty queue
  // it is the timer or the retry the last reconcile left behind.
  lemma Rouses(cfg: Config, key: string, l: Local, sh: Shared)
    requires AtPeace(cfg.kind, key, l, sh)
    ensures Drive(cfg, key, l, sh, Wake(l)) == Some((Rouse(l), sh))
    ensures Roused(cfg.kind, key, Rouse(l), sh) && Rouse(l).versions == l.versions
  {
    hide Inv, Drive, Wake, Rouse;
    WakesUp(cfg, key, l, sh);
  }

  lemma DriveNone(cfg: Config, key: string, l: Local, sh: Shared)
    ensures Drive(cfg, key, l, sh, []) == Some((l, sh))
  {
  }

  // One undisturbed round lowers the measure, and from a converged state it changes
  // neither the stored object nor the cloud.
  lemma RoundProgress(cfg: Config, key: string, l: Local, sh: Shared, id: string, life: Life)
    requires AtPeace(cfg.kind, key, l, sh) && OnTrack(cfg.kind, life)
    requires id != "" && (Measure(cfg.kind, l, sh) >= 6 ==> id !in sh.cloud)
    ensures Progress(cfg.kind, key, l, sh, id, Round(cfg, key, l, sh, id, life))
  {
    hide AtPeace, Turn, Drive, Wake, Rouse;
    Rouses(cfg, key, l, sh);
    TurnProgress(cfg, key, Rouse(l), sh, id, life);
  }

  lemma StoredFinalizer(kind: Kind, key: string, l: Local, sh: Shared)
    requires AtPeace(kind, key, l, sh)
    ensures var o := Last(l.versions).value;
      && (o.status.id != "" ==> Finalizer(kind) in o.finalizers)
      && "" !in sh.cloud
  {
    assert VersionOk(kind, key, sh, |l.versions| - 1, Last(l.versions).value);
  }

  ghost function Rounds(cfg: Config, key: string, l: Local, sh: Shared, id: string, life: Life, n: nat)
    : Option<(Local, Shared)>
    decreases n
  {
    if n == 0 then Some((l, sh))
    else
      var r := Round(cfg, key, l, sh, id, life);
      if r.None? then None else Rounds(cfg, key, r.value.0, r.value.1, id, life, n - 1)
  }

  // Seven undisturbed rounds are enough from any such state, and from then on every
  // further round leaves the stored object and the cloud as they are.
  lemma {:induction false} Converges(cfg: Config, key: string, l: Local, sh: Shared, id: string, life: Life, n: nat)
    requires AtPeace(cfg.kind, key, l, sh) && OnTrack(cfg.kind, life)
    requires id != "" && (Measure(cfg.kind, l, sh) >= 6 ==> id !in sh.cloud)
    ensures var r := Rounds(cfg, key, l, sh, id, life, n);
      && r.Some? && AtPeace(cfg.kind, key, r.value.0, r.value.1)
      && (Measure(cfg.kind, l, sh) <= n ==> Converged(cfg.kind, r.value.0, r.value.1))
      && (Converged(cfg.kind, l, sh) ==> r.value.0.versions == l.versions && r.value.1 == sh)
    ensures Measure(cfg.kind, l, sh) <= 7
    decreases n
  {
    hide AtPeace, Measure, Round, Inv, Drive, Next, OnTrack;
    MeasureBound(cfg.kind, l, sh);
    if n > 0 {
      RoundProgress(cfg, key, l, sh, id, life);
      var r := Round(cfg, key, l, sh, id, life);
      ConvergedStays(cfg.kind, l, r.value.0, sh);
      Converges(cfg, key, r.value.0, r.value.1, id, life, n - 1);
    }
  }

  lemma MeasureBound(kind: Kind, l: Local, sh: Shared)
    ensures Measure(kind, l, sh) <= 7
  {
  }

  lemma ConvergedStays(kind: Kind, l: Local, l': Local, sh: Shared)
    ensures l'.versions == l.versions ==> Measure(kind, l', sh) == Measure(kind, l, sh)
  {
  }

  // ---- Rounds are drives without any user ----

  ghost predicate Unattended(labs: seq<Label>) {
    forall i | 0 <= i < |labs| :: !ByUser(labs[i])
  }

  // labs drives the key from one state to the other, with no user step.
  ghost predicate Leads(cfg: Config, key: string, l: Local, sh: Shared, labs: seq<Label>, r: Option<(Local, Shared)>) {
    r.Some? && Unattended(labs) && Drive(cfg, key, l, sh, labs) == r
  }

  lemma LeadsOn(cfg: Config, key: string, l: Local, sh: Shared, a: seq<Label>, m: Option<(Local, Shared)>,
                b: seq<Label>, r: Option<(Local, Shared)>)
    requires Leads(cfg, key, l, sh, a, m) && Leads(cfg, key, m.value.0, m.value.1, b, r)
    ensures Leads(cfg, key, l, sh, a + b, r)
  {
    hide Drive;
    DriveConcat(cfg, key, l, sh, a, b);
  }

  lemma CallsUnattended(kind: Kind, o: Obj, id: string, life: Life)
    ensures Unattended(Calls(kind, o, id, life))
  {
    hide Finalizer;
  }

  lemma WakeUnattended(l: Local)
    ensures Unattended(Wake(l))
  {
  }

  lemma SettlingUnattended(kind: Kind, l: Local, sh: Shared)
    ensures Unattended(Settling(kind, l, sh))
  {
  }

  lemma RoundDriven(cfg: Config, key: string, l: Local, sh: Shared, id: string, life: Life) returns (labs: seq<Label>)
    requires Round(cfg, key, l, sh, id, life).Some?
    ensures Leads(cfg, key, l, sh, labs, Round(cfg, key, l, sh, id, life))
  {
    hide Drive, Wake, Calls, Settling, Unattended;
    var r0 := Drive(cfg, key, l, sh, Wake(l));
    WakeUnattended(l);
    labs := Wake(l);
    if r0.value.0.queued {
      var r1 := Reconciled(cfg, key, r0.value.0, r0.value.1, id, life);
      var calls := Calls(cfg.kind, Last(r0.value.0.versions).value, id, life);
      CallsUnattended(cfg.kind, Last(r0.value.0.versions).value, id, life);
      LeadsOn(cfg, key, l, sh, labs, r0, calls, r1);
      var rest := Settling(cfg.kind, r1.value.0, r1.value.1);
      SettlingUnattended(cfg.kind, r1.value.0, r1.value.1);
      LeadsOn(cfg, key, l, sh, labs + calls, r1, rest, Round(cfg, key, l, sh, id, life));
      labs := labs + calls + rest;
    }
  }

  lemma {:induction false} RoundsDriven(cfg: Config, key: string, l: Local, sh: Shared, id: string, life: Life, n: nat)
    returns (labs: seq<Label>)
    requires Rounds(cfg, key, l, sh, id, life, n).Some?
    ensures Leads(cfg, key, l, sh, labs, Rounds(cfg, key, l, sh, id, life, n))
    decreases n
  {
    hide Round;
    labs := [];
    if n > 0 {
      var r := Round(cfg, key, l, sh, id, life);
      var head := RoundDriven(cfg, key, l, sh, id, life);
      var rest := RoundsDriven(cfg, key, r.value.0, r.value.1, id, life, n - 1);
      LeadsOn(cfg, key, l, sh, head, r, rest, Rounds(cfg, key, l, sh, id, life, n));
      labs := head + rest;
    }
  }
}
