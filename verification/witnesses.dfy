// Runs that show where an unconditional promise fails.
module Witnesses {
  import opened Resources
  import opened Machine
  import opened Invariants
  import opened Preservation
  import opened PreservationWrites
  import opened Worlds
  import opened Safety
  import opened Launches
  import opened Phases
  import opened Convergence

  const NEW_SHARED := Shared(0, map[], {})

  // ---- A driven key is a run ----

  ghost function Visits(cfg: Config, key: string, l: Local, sh: Shared, labs: seq<Label>): (ws: seq<World>)
    requires Drive(cfg, key, l, sh, labs).Some?
    ensures |ws| == |labs| + 1 && ws[0] == World(map[key := l], sh)
    decreases |labs|
  {
    if labs == [] then [World(map[key := l], sh)]
    else
      var (l', sh') := Next(cfg, key, l, sh, labs[0]);
      [World(map[key := l], sh)] + Visits(cfg, key, l', sh', labs[1..])
  }

  lemma {:induction false} VisitsStep(cfg: Config, key: string, l: Local, sh: Shared, labs: seq<Label>, i: nat)
    requires Drive(cfg, key, l, sh, labs).Some? && i < |labs|
    ensures var ws := Visits(cfg, key, l, sh, labs); Steps(cfg, ws[i], Event(key, labs[i]), ws[i + 1])
    decreases |labs|
  {
    hide Next;
    var (l', sh') := Next(cfg, key, l, sh, labs[0]);
    var w, e := World(map[key := l], sh), Event(key, labs[0]);
    if i == 0 {
      assert After(cfg, w, e).locals == map[key := l'];
    } else {
      VisitsStep(cfg, key, l', sh', labs[1..], i - 1);
    }
  }

  lemma {:induction false} VisitsLast(cfg: Config, key: string, l: Local, sh: Shared, labs: seq<Label>)
    requires Drive(cfg, key, l, sh, labs).Some?
    ensures var r := Drive(cfg, key, l, sh, labs).value;
            Visits(cfg, key, l, sh, labs)[|labs|] == World(map[key := r.0], r.1)
    decreases |labs|
  {
    hide Next;
    if labs != [] {
      var (l', sh') := Next(cfg, key, l, sh, labs[0]);
      VisitsLast(cfg, key, l', sh', labs[1..]);
    }
  }

  ghost predicate Reachable(cfg: Config, key: string, l: Local, sh: Shared) {
    exists ws, es :: IsRun(cfg, ws, es) && ws[|ws| - 1] == World(map[key := l], sh)
  }

  lemma DrivenReachable(cfg: Config, key: string, labs: seq<Label>)
    requires Drive(cfg, key, NEW_LOCAL, NEW_SHARED, labs).Some?
    ensures var r := Drive(cfg, key, NEW_LOCAL, NEW_SHARED, labs).value; Reachable(cfg, key, r.0, r.1)
  {
    var ws := Visits(cfg, key, NEW_LOCAL, NEW_SHARED, labs);
    var es := seq(|labs|, i requires 0 <= i < |labs| => Event(key, labs[i]));
    forall i | 0 <= i < |es| ensures Steps(cfg, ws[i], es[i], ws[i + 1]) {
      VisitsStep(cfg, key, NEW_LOCAL, NEW_SHARED, labs, i);
    }
    VisitsLast(cfg, key, NEW_LOCAL, NEW_SHARED, labs);
    assert IsRun(cfg, ws, es);
  }

  // ---- A common beginning: created with our finalizer, fenced, about to launch ----

  ghost function Born(kind: Kind, key: string, spec: Spec): Obj {
    Obj(Uid(key, 1), 0, 1, false, {Finalizer(kind)}, spec, EMPTY_STATUS)
  }

  ghost function FencedObj(kind: Kind, key: string, spec: Spec): Obj {
    Born(kind, key, spec).(rv := 1, status := EMPTY_STATUS.(phase := FencePhase(kind)))
  }

  // Deliver version p, wake up, read it, and get a client.
  ghost function Waking(p: nat, rest: seq<Label>): seq<Label> {
    [CacheMove(p)] + ([Dequeue] + ([CallGet(true)] + ([ClientReady] + rest)))
  }

  lemma Wakes(cfg: Config, key: string, l: Local, sh: Shared, p: nat, o: Obj, rest: seq<Label>)
    requires Shape(l) && l.worker.Idle? && p < |l.versions| && l.versions[p] == Some(o)
    requires !o.deleting && Finalizer(cfg.kind) in o.finalizers && !FailedForGeneration(o)
    ensures Drive(cfg, key, l, sh, Waking(p, rest))
         == Drive(cfg, key, l.(view := p, queued := false, worker := WithClient(o)), sh, rest)
  {
    hide Drive;
    var m := l.(view := p, queued := false);
    DriveStep(cfg, key, l, sh, CacheMove(p), [Dequeue] + ([CallGet(true)] + ([ClientReady] + rest)));
    DriveStep(cfg, key, l.(view := p, queued := true), sh, Dequeue, [CallGet(true)] + ([ClientReady] + rest));
    DriveStep(cfg, key, m.(worker := Fetching), sh, CallGet(true), [ClientReady] + rest);
    DriveStep(cfg, key, m.(worker := NeedClient(o)), sh, ClientReady, rest);
  }

  ghost function Beginning(kind: Kind, spec: Spec): seq<Label> {
    [UserCreate(spec, {Finalizer(kind)})] + Waking(1, [CallWrite(Reply)])
  }

  // The worker is about to launch for o, which is what the server holds; the cache lags.
  ghost predicate AboutToLaunch(kind: Kind, key: string, l: Local, sh: Shared, o: Obj) {
    && l.worker == Launching(o) && Launchable(kind, o) && o.status == EMPTY_STATUS.(phase := FencePhase(kind))
    && |l.versions| == 3 && Last(l.versions) == Some(o) && l.versions[1] == Some(Born(kind, key, o.spec)) && l.view == 1
    && o.uid == Uid(key, 1) && o.rv == 1 && o.generation == 1 && o.finalizers == {Finalizer(kind)}
    && !l.queued && l.accounts == map[] && sh == Shared(2, map[], {})
  }

  lemma Creates(cfg: Config, key: string, spec: Spec, rest: seq<Label>)
    requires SpecOk(cfg.kind, spec)
    ensures Drive(cfg, key, NEW_LOCAL, NEW_SHARED, [UserCreate(spec, {Finalizer(cfg.kind)})] + rest)
         == Drive(cfg, key, NEW_LOCAL.(versions := [None] + [Some(Born(cfg.kind, key, spec))]),
                  Shared(1, map[], {}), rest)
  {
    DriveStep(cfg, key, NEW_LOCAL, NEW_SHARED, UserCreate(spec, {Finalizer(cfg.kind)}), rest);
  }

  lemma Begins(cfg: Config, key: string, spec: Spec)
    requires SpecOk(cfg.kind, spec)
    ensures var r := Drive(cfg, key, NEW_LOCAL, NEW_SHARED, Beginning(cfg.kind, spec));
      r.Some? && AboutToLaunch(cfg.kind, key, r.value.0, r.value.1, FencedObj(cfg.kind, key, spec))
  {
    hide Drive, Next;
    var o := Born(cfg.kind, key, spec);
    var l := NEW_LOCAL.(versions := [None] + [Some(o)]);
    var sh := Shared(1, map[], {});
    Creates(cfg, key, spec, Waking(1, [CallWrite(Reply)]));
    Wakes(cfg, key, l, sh, 1, o, [CallWrite(Reply)]);
    FencesLast(cfg, key, l.(view := 1, worker := Fencing(o)), sh);
  }

  lemma FencesLast(cfg: Config, key: string, l: Local, sh: Shared)
    requires Shape(l) && l.worker.Fencing? && Last(l.versions) == Some(l.worker.mem)
    requires l.worker.mem.status == EMPTY_STATUS
    ensures var o := l.worker.mem.(status := EMPTY_STATUS.(phase := FencePhase(cfg.kind)), rv := sh.clock);
      Drive(cfg, key, l, sh, [CallWrite(Reply)])
        == Some((l.(versions := l.versions + [Some(o)], worker := Launching(o)), sh.(clock := sh.clock + 1)))
  {
    DriveLast(cfg, key, l, sh, CallWrite(Reply));
  }

  lemma FromBeginning(cfg: Config, key: string, spec: Spec, rest: seq<Label>)
    requires var b := Drive(cfg, key, NEW_LOCAL, NEW_SHARED, Beginning(cfg.kind, spec));
      b.Some? && Drive(cfg, key, b.value.0, b.value.1, rest).Some?
    ensures var b := Drive(cfg, key, NEW_LOCAL, NEW_SHARED, Beginning(cfg.kind, spec));
      var r := Drive(cfg, key, b.value.0, b.value.1, rest).value; Reachable(cfg, key, r.0, r.1)
  {
    DriveConcat(cfg, key, NEW_LOCAL, NEW_SHARED, Beginning(cfg.kind, spec), rest);
    DrivenReachable(cfg, key, Beginning(cfg.kind, spec) + rest);
  }

  // ---- An ID can be lost, and the object is then provisioned twice ----

  ghost function Launch(id: string): Label {
    CallLaunch(LaunchOk, id, ProvisioningState, "unused")
  }

  ghost function LosingId(kind: Kind, a: string): seq<Label> {
    [Launch(a)] + ([UserMeta({Finalizer(kind)})] + ([CallWrite(Reply)] + [Finish]))
  }

  // The lost ID is in the cloud and nowhere else; the object is as before the launch.
  ghost predicate LostFirst(kind: Kind, key: string, l: Local, sh: Shared, a: string) {
    && Shape(l) && l.worker.Idle? && |l.versions| == 4 && Last(l.versions).Some?
    && Launchable(kind, Last(l.versions).value) && Last(l.versions).value.status.phase == FencePhase(kind)
    && Last(l.versions).value.uid == Uid(key, 1) && Last(l.versions).value.generation == 1
    && sh.cloud.Keys == {a} && sh.cloud[a].owner == Uid(key, 1) && sh.lost == {a}
  }

  lemma Touches(cfg: Config, key: string, l: Local, sh: Shared, rest: seq<Label>)
    requires Shape(l) && Last(l.versions).Some? && !Last(l.versions).value.deleting
    requires Last(l.versions).value.finalizers == {Finalizer(cfg.kind)} && Last(l.versions).value.rv < sh.clock
    ensures Drive(cfg, key, l, sh, [UserMeta({Finalizer(cfg.kind)})] + rest)
         == Drive(cfg, key, l.(versions := l.versions + [Some(Last(l.versions).value.(rv := sh.clock))]),
                  sh.(clock := sh.clock + 1), rest)
  {
    hide Drive, NextWrite, NextGet, NextTerminate, NextFinish, NextCloudMove;
    DriveStep(cfg, key, l, sh, UserMeta({Finalizer(cfg.kind)}), rest);
  }

  lemma Conflicts(cfg: Config, key: string, l: Local, sh: Shared)
    requires Shape(l) && Writing(l.worker) && Conflict(Last(l.versions), Sent(cfg.kind, l.worker))
    ensures Drive(cfg, key, l, sh, [CallWrite(Reply)] + [Finish])
         == Some((l.(worker := Idle, retry := true, accounts := Setback(l)), sh.(lost := sh.lost + Held(l.worker))))
  {
    var l' := l.(worker := Returned(Retry), accounts := Setback(l));
    var sh' := sh.(lost := sh.lost + Held(l.worker));
    DriveStep(cfg, key, l, sh, CallWrite(Reply), [Finish]);
    DriveLast(cfg, key, l', sh', Finish);
  }

  lemma LosesFirst(cfg: Config, key: string, l: Local, sh: Shared, o: Obj, a: string)
    requires AboutToLaunch(cfg.kind, key, l, sh, o) && a != ""
    ensures var r := Drive(cfg, key, l, sh, LosingId(cfg.kind, a));
      r.Some? && LostFirst(cfg.kind, key, r.value.0, r.value.1, a)
  {
    hide Drive, NextLaunch, Next, Conflict, Sent, Setback, Finalizer;
    var write := [CallWrite(Reply)] + [Finish];
    LaunchOwner(cfg, l, sh, a);
    LaunchStep(cfg, key, l, sh, a, ProvisioningState, [UserMeta({Finalizer(cfg.kind)})] + write);
    var (l1, sh1) := Launched(cfg, l, sh, a, ProvisioningState);
    Touches(cfg, key, l1, sh1, write);
    var l2 := l1.(versions := l1.versions + [Some(o.(rv := 2))]);
    StaleConflicts(cfg.kind, l2.worker, o.(rv := 2));
    Conflicts(cfg, key, l2, sh1.(clock := 3));
  }

  // A write from an older version conflicts.
  lemma StaleConflicts(kind: Kind, w: Worker, stored: Obj)
    requires w.Recording? && stored.rv != w.mem.rv
    ensures Writing(w) && Conflict(Some(stored), Sent(kind, w))
  {
  }

  ghost function Again(b: string): seq<Label> {
    Waking(3, [CallWrite(Reply)] + ([Launch(b)] + [CallWrite(Reply)]))
  }

  ghost predicate TwoForOne(l: Local, sh: Shared, a: string, b: string) {
    && Last(l.versions).Some? && Last(l.versions).value.status.id == b && Last(l.versions).value.generation == 1
    && a in sh.lost && a in sh.cloud && b in sh.cloud && b !in sh.lost
    && sh.cloud[a].owner == sh.cloud[b].owner == Last(l.versions).value.uid
  }

  // A fence that changes nothing: the phase is already there.
  lemma FencesAgain(cfg: Config, key: string, l: Local, sh: Shared, rest: seq<Label>)
    requires Shape(l) && l.worker.Fencing? && Last(l.versions) == Some(l.worker.mem)
    requires l.worker.mem.status.phase == FencePhase(cfg.kind)
    ensures Drive(cfg, key, l, sh, [CallWrite(Reply)] + rest)
        == Drive(cfg, key, l.(worker := Launching(l.worker.mem)), sh, rest)
  {
    DriveStep(cfg, key, l, sh, CallWrite(Reply), rest);
  }

  lemma RecordsLast(cfg: Config, key: string, l: Local, sh: Shared)
    requires Shape(l) && l.worker.Recording? && l.worker.id != "" && Last(l.versions) == Some(l.worker.mem)
    requires l.worker.mem.status.id == ""
    ensures var o := l.worker.mem;
      var v := o.(status := o.status.(id := l.worker.id, phase := CreatedPhase(cfg.kind), observed := o.generation),
          rv := sh.clock);
      Drive(cfg, key, l, sh, [CallWrite(Reply)])
        == Some((l.(versions := l.versions + [Some(v)], worker := Returned(RequeueAfter(CreatedDelay(cfg.kind)))),
            sh.(clock := sh.clock + 1)))
  {
    DriveLast(cfg, key, l, sh, CallWrite(Reply));
  }

  lemma Relaunches(cfg: Config, key: string, l: Local, sh: Shared, a: string, b: string)
    requires LostFirst(cfg.kind, key, l, sh, a) && b != "" && a != b
    ensures var r := Drive(cfg, key, l, sh, Again(b)); r.Some? && TwoForOne(r.value.0, r.value.1, a, b)
  {
    hide Drive, Next, NextLaunch;
    var o := Last(l.versions).value;
    var m := l.(view := 3, queued := false);
    Wakes(cfg, key, l, sh, 3, o, [CallWrite(Reply)] + ([Launch(b)] + [CallWrite(Reply)]));
    FencesAgain(cfg, key, m.(worker := Fencing(o)), sh, [Launch(b)] + [CallWrite(Reply)]);
    LaunchStep(cfg, key, m.(worker := Launching(o)), sh, b, ProvisioningState, [CallWrite(Reply)]);
    LaunchOwner(cfg, m.(worker := Launching(o)), sh, b);
    var (l1, sh1) := Launched(cfg, m.(worker := Launching(o)), sh, b, ProvisioningState);
    RecordsLast(cfg, key, l1, sh1);
  }

  lemma LaunchOwner(cfg: Config, l: Local, sh: Shared, id: string)
    requires l.worker.Launching?
    ensures var sh' := Launched(cfg, l, sh, id, ProvisioningState).1;
            id in sh'.cloud && sh'.cloud[id].owner == l.worker.mem.uid
  {
  }

  // A metadata write by anyone between launch and record costs the ID: the resource is
  // lost, the next reconcile creates a second one, and only that one is recorded.
  lemma OrphanRun(cfg: Config, key: string, spec: Spec, a: string, b: string)
    requires a != "" && b != "" && a != b && SpecOk(cfg.kind, spec)
    ensures exists l, sh :: Reachable(cfg, key, l, sh) && TwoForOne(l, sh, a, b)
  {
    hide Drive;
    Begins(cfg, key, spec);
    var r := Drive(cfg, key, NEW_LOCAL, NEW_SHARED, Beginning(cfg.kind, spec)).value;
    LosesFirst(cfg, key, r.0, r.1, FencedObj(cfg.kind, key, spec), a);
    var r1 := Drive(cfg, key, r.0, r.1, LosingId(cfg.kind, a)).value;
    Relaunches(cfg, key, r1.0, r1.1, a, b);
    DriveConcat(cfg, key, r.0, r.1, LosingId(cfg.kind, a), Again(b));
    FromBeginning(cfg, key, spec, LosingId(cfg.kind, a) + Again(b));
  }

  // ---- A failed launch ----

  ghost function Fails(why: string): Label {
    CallLaunch(LaunchError, "unused", ProvisioningState, why)
  }

  lemma FailStep(cfg: Config, key: string, l: Local, sh: Shared, why: string, rest: seq<Label>)
    requires Shape(l) && l.worker.Launching? && why != "" && "unused" !in sh.cloud
    ensures var a := AccountOf(l.accounts, l.worker.mem.uid);
      var l' := l.(worker := Refetching(Some(l.worker.mem), why),
                   accounts := l.accounts[l.worker.mem.uid :=
                     a.(launches := a.launches + 1, attempted := a.attempted + {l.worker.mem.generation})]);
      Drive(cfg, key, l, sh, [Fails(why)] + rest) == Drive(cfg, key, l', sh, rest)
  {
    hide Drive, NextWrite, NextGet, NextTerminate, NextFinish, NextCloudMove;
    DriveStep(cfg, key, l, sh, Fails(why), rest);
  }

  lemma RefetchStep(cfg: Config, key: string, l: Local, sh: Shared, p: nat, o: Obj, rest: seq<Label>)
    requires Shape(l) && l.worker.Refetching? && p < |l.versions| && l.versions[p] == Some(o)
    ensures Drive(cfg, key, l, sh, [CacheMove(p)] + ([CallGet(true)] + rest))
         == Drive(cfg, key, l.(view := p, queued := true,
                              worker := MarkingFailed(o, l.worker.cause, l.worker.reason)), sh, rest)
  {
    DriveStep(cfg, key, l, sh, CacheMove(p), [CallGet(true)] + rest);
    DriveStep(cfg, key, l.(view := p, queued := true), sh, CallGet(true), rest);
  }

  lemma EditStep(cfg: Config, key: string, l: Local, sh: Shared, spec: Spec, rest: seq<Label>)
    requires Shape(l) && Last(l.versions).Some? && Last(l.versions).value.spec != spec && SpecOk(cfg.kind, spec)
    requires Last(l.versions).value.rv < sh.clock
    ensures var o := Last(l.versions).value; var a := AccountOf(l.accounts, o.uid);
      Drive(cfg, key, l, sh, [UserEdit(spec)] + rest)
        == Drive(cfg, key,
                 l.(versions := l.versions + [Some(o.(spec := spec, generation := o.generation + 1, rv := sh.clock))],
                    accounts := l.accounts[o.uid := a.(edits := a.edits + 1)]),
                 sh.(clock := sh.clock + 1), rest)
  {
    hide Drive, NextWrite, NextGet, NextTerminate, NextFinish, NextCloudMove;
    DriveStep(cfg, key, l, sh, UserEdit(spec), rest);
  }

  lemma MarkStep(cfg: Config, key: string, l: Local, sh: Shared, rest: seq<Label>)
    requires Shape(l) && l.worker.MarkingFailed? && Last(l.versions) == Some(l.worker.mem)
        && l.worker.mem.status.phase != Failed
    ensures var o := l.worker.mem;
      var v := o.(status := o.status.(phase := Failed, reason := l.worker.reason, observed := o.generation),
          rv := sh.clock);
      Drive(cfg, key, l, sh, [CallWrite(Reply)] + ([Finish] + rest))
        == Drive(cfg, key, l.(versions := l.versions + [Some(v)], worker := Idle), sh.(clock := sh.clock + 1), rest)
  {
    hide Drive, Committed, Next;
    MarkCommits(cfg.kind, l.worker, sh.clock);
    WriteStep(cfg, key, l, sh, [Finish] + rest);
    var v := Committed(cfg.kind, l.worker, l.worker.mem, sh.clock);
    StopStep(cfg, key, l.(versions := l.versions + [v], worker := Returned(Stop)), sh.(clock := sh.clock + 1), rest);
  }

  lemma MarkCommits(kind: Kind, w: Worker, rv: nat)
    requires w.MarkingFailed? && w.mem.status.phase != Failed
    ensures var o := w.mem;
      Committed(kind, w, o, rv)
        == Some(o.(status := o.status.(phase := Failed, reason := w.reason, observed := o.generation), rv := rv))
    ensures Committed(kind, w, w.mem, rv) != Some(w.mem)
  {
  }

  lemma StopStep(cfg: Config, key: string, l: Local, sh: Shared, rest: seq<Label>)
    requires Shape(l) && l.worker == Returned(Stop)
    ensures Drive(cfg, key, l, sh, [Finish] + rest) == Drive(cfg, key, l.(worker := Idle), sh, rest)
  {
    DriveStep(cfg, key, l, sh, Finish, rest);
  }

  // Failed for generation 2, with only generation 1 ever attempted.
  ghost predicate FailedUnattempted(l: Local) {
    && Last(l.versions).Some? && FailedForGeneration(Last(l.versions).value) && Last(l.versions).value.generation == 2
    && AccountOf(l.accounts, Last(l.versions).value.uid).attempted == {1}
  }

  // An edit between a failed launch and the refetch is marked failed without ever having
  // been tried, and will not be tried until the user edits again.
  lemma UnattemptedRun(cfg: Config, key: string, spec: Spec, edited: Spec, why: string)
    requires spec != edited && why != "" && SpecOk(cfg.kind, spec) && SpecOk(cfg.kind, edited)
    ensures exists l, sh :: Reachable(cfg, key, l, sh) && FailedUnattempted(l) && l.worker.Idle?
  {
    hide Drive, Next;
    Begins(cfg, key, spec);
    var r := Drive(cfg, key, NEW_LOCAL, NEW_SHARED, Beginning(cfg.kind, spec)).value;
    var o := FencedObj(cfg.kind, key, spec);
    var mark := [CallWrite(Reply)] + ([Finish] + []);
    var refetch := [CacheMove(3)] + ([CallGet(true)] + mark);
    var rest := [Fails(why)] + ([UserEdit(edited)] + refetch);
    FailStep(cfg, key, r.0, r.1, why, [UserEdit(edited)] + refetch);
    var l1 := r.0.(worker := Refetching(Some(o), why), accounts := r.0.accounts[o.uid := Account(1, 0, 0, {} + {1})]);
    EditStep(cfg, key, l1, r.1, edited, refetch);
    var o2 := o.(spec := edited, generation := 2, rv := 2);
    var l2 := l1.(versions := l1.versions + [Some(o2)], accounts := l1.accounts[o.uid := Account(1, 1, 0, {} + {1})]);
    RefetchStep(cfg, key, l2, Shared(3, map[], {}), 3, o2, mark);
    var l3 := l2.(view := 3, queued := true, worker := MarkingFailed(o2, Some(o), why));
    MarkStep(cfg, key, l3, Shared(3, map[], {}), []);
    var v := o2.(status := o2.status.(phase := Failed, reason := why, observed := 2), rv := 3);
    DriveNone(cfg, key, l3.(versions := l3.versions + [Some(v)], worker := Idle), Shared(4, map[], {}));
    FromBeginning(cfg, key, spec, rest);
  }

  // ---- The refetch itself can be stale ----

  ghost function StaleRefetch(why: string): seq<Label> {
    [Fails(why)] + ([CacheMove(1)] + ([CallGet(true)] + ([CallWrite(Reply)] + [Finish])))
  }

  lemma StaleRefetchConflicts(cfg: Config, key: string, l: Local, sh: Shared, o: Obj, why: string)
    requires AboutToLaunch(cfg.kind, key, l, sh, o) && why != ""
    ensures var r := Drive(cfg, key, l, sh, StaleRefetch(why));
      && r.Some? && Shape(r.value.0) && r.value.0.worker.Idle? && r.value.0.versions == l.versions
      && AccountOf(r.value.0.accounts, o.uid) == Account(1, 0, 1, {1}) && r.value.1.cloud == map[]
  {
    hide Drive, Next;
    var write := [CallWrite(Reply)] + [Finish];
    var b := Born(cfg.kind, key, o.spec);
    FailStep(cfg, key, l, sh, why, [CacheMove(1)] + ([CallGet(true)] + write));
    var l1 := l.(worker := Refetching(Some(o), why), accounts := l.accounts[o.uid := Account(1, 0, 0, {} + {1})]);
    RefetchStep(cfg, key, l1, sh, 1, b, write);
    var l2 := l1.(view := 1, queued := true, worker := MarkingFailed(b, Some(o), why));
    Conflicts(cfg, key, l2, sh);
    assert {} + {1} == {1};
  }

  // Right after the fence the cache still shows the version before it; the failure write
  // built from it conflicts, Failed is never stored, and the launch is issued again. This
  // also shows that the launch bound is attained: two launches, no edit, one setback.
  lemma RelaunchRun(cfg: Config, key: string, spec: Spec, why: string)
    requires why != "" && SpecOk(cfg.kind, spec)
    ensures exists l, sh :: Reachable(cfg, key, l, sh) && Last(l.versions).Some?
              && Last(l.versions).value.status.phase != Failed
              && AccountOf(l.accounts, Last(l.versions).value.uid) == Account(2, 0, 1, {1})
  {
    hide Drive, Next;
    Begins(cfg, key, spec);
    var r := Drive(cfg, key, NEW_LOCAL, NEW_SHARED, Beginning(cfg.kind, spec)).value;
    var o := FencedObj(cfg.kind, key, spec);
    StaleRefetchConflicts(cfg, key, r.0, r.1, o, why);
    var r1 := Drive(cfg, key, r.0, r.1, StaleRefetch(why)).value;
    var again := Waking(2, [CallWrite(Reply)] + ([Fails(why)] + []));
    var m := r1.0.(view := 2, queued := false);
    Wakes(cfg, key, r1.0, r1.1, 2, o, [CallWrite(Reply)] + ([Fails(why)] + []));
    FencesAgain(cfg, key, m.(worker := Fencing(o)), r1.1, [Fails(why)] + []);
    FailStep(cfg, key, m.(worker := Launching(o)), r1.1, why, []);
    var l := m.(worker := Refetching(Some(o), why), accounts := m.accounts[o.uid := Account(2, 0, 1, {1} + {1})]);
    DriveNone(cfg, key, l, r1.1);
    DriveConcat(cfg, key, r.0, r.1, StaleRefetch(why), again);
    FromBeginning(cfg, key, spec, StaleRefetch(why) + again);
    assert {1} + {1} == {1};
  }

  // ---- Security policies are called Active before the cloud says so ----

  lemma SyncLast(cfg: Config, key: string, l: Local, sh: Shared)
    requires Shape(l) && l.worker.Polling? && Last(l.versions) == Some(l.worker.mem)
        && l.worker.mem.status.id in sh.cloud
    ensures var life := sh.cloud[l.worker.mem.status.id].life;
      var r := Drive(cfg, key, l, sh, [CallPoll(true)] + [CallWrite(Reply)]);
      && r.Some? && r.value.1.cloud == sh.cloud
      && Last(r.value.0.versions) == Committed(cfg.kind, Syncing(l.worker.mem, life), l.worker.mem, sh.clock)
  {
    hide Committed;
    var l' := l.(worker := Syncing(l.worker.mem, sh.cloud[l.worker.mem.status.id].life));
    PollStep(cfg, key, l, sh, [CallWrite(Reply)]);
    WriteStep(cfg, key, l', sh, []);
    assert [CallWrite(Reply)] + [] == [CallWrite(Reply)];
  }

  // The cloud reports PROVISIONING throughout; the stored phase is first Active, then
  // Creating.
  lemma PolicyGoesBack(cfg: Config, key: string, spec: Spec, a: string)
    requires cfg.kind == Policy && a != "" && SpecOk(Policy, spec)
    ensures exists l1, sh1, labs ::
      && Reachable(cfg, key, l1, sh1) && Last(l1.versions).Some? && Last(l1.versions).value.status.phase == Active
      && Last(l1.versions).value.status.id in sh1.cloud
      && sh1.cloud[Last(l1.versions).value.status.id].life == ProvisioningState
      && var r := Drive(cfg, key, l1, sh1, labs);
         && r.Some? && r.value.1.cloud == sh1.cloud && Last(r.value.0.versions).Some?
         && Last(r.value.0.versions).value.status.phase == Creating
         && !Advances(Last(l1.versions), Last(r.value.0.versions))
  {
    hide Drive, Next, NextLaunch;
    Begins(cfg, key, spec);
    var r := Drive(cfg, key, NEW_LOCAL, NEW_SHARED, Beginning(cfg.kind, spec)).value;
    var o := FencedObj(cfg.kind, key, spec);
    LaunchStep(cfg, key, r.0, r.1, a, ProvisioningState, [CallWrite(Reply)]);
    var (l, sh) := Launched(cfg, r.0, r.1, a, ProvisioningState);
    RecordsLast(cfg, key, l, sh);
    FromBeginning(cfg, key, spec, [Launch(a)] + [CallWrite(Reply)]);
    var v := o.(status := o.status.(id := a, phase := Active, observed := 1), rv := 2);
    var l1 := l.(versions := l.versions + [Some(v)], worker := Returned(RequeueAfter(CreatedDelay(cfg.kind))));
    var sh1 := sh.(clock := 3);
    var l2 := l1.(worker := Idle, timer := true);
    var sync := [CallPoll(true)] + [CallWrite(Reply)];
    FinishThen(cfg, key, l1, sh1, Waking(3, sync));
    Wakes(cfg, key, l2, sh1, 3, v, sync);
    var l3 := l2.(view := 3, queued := false, worker := Polling(v));
    SyncLast(cfg, key, l3, sh1);
    SyncedCreating(v, sh1.clock);
    var r2 := Drive(cfg, key, l1, sh1, [Finish] + Waking(3, sync));
    assert r2 == Drive(cfg, key, l3, sh1, sync);
  }

  lemma FinishThen(cfg: Config, key: string, l: Local, sh: Shared, rest: seq<Label>)
    requires Shape(l) && l.worker.Returned? && l.worker.result.RequeueAfter?
    ensures Drive(cfg, key, l, sh, [Finish] + rest) == Drive(cfg, key, l.(worker := Idle, timer := true), sh, rest)
  {
    DriveStep(cfg, key, l, sh, Finish, rest);
  }

  lemma SyncedCreating(o: Obj, rv: nat)
    requires o.status.phase == Active && o.status.id != ""
    ensures var v := Committed(Policy, Syncing(o, ProvisioningState), o, rv);
      v.Some? && v.value.status.phase == Creating && !Advances(Some(o), v)
  {
  }
}
