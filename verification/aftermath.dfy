// Runs that go on after a resource was created or a creation failed: an edit that is never
// applied, a failure reason that outlives the failure, a failure that outlives its cause.
module Aftermath {
  import opened Resources
  import opened Machine
  import opened Invariants
  import opened Preservation
  import opened PreservationWrites
  import opened Worlds
  import opened Requests
  import opened StatusChanges
  import opened Convergence
  import opened Drift
  import opened Witnesses

  // labs drives a fresh key there.
  ghost predicate Reached(cfg: Config, key: string, labs: seq<Label>, l: Local, sh: Shared) {
    Drive(cfg, key, NEW_LOCAL, NEW_SHARED, labs) == Some((l, sh))
  }

  lemma ReachOn(cfg: Config, key: string, labs: seq<Label>, l: Local, sh: Shared, more: seq<Label>)
    requires Reached(cfg, key, labs, l, sh) && Drive(cfg, key, l, sh, more).Some?
    ensures var r := Drive(cfg, key, l, sh, more).value; Reached(cfg, key, labs + more, r.0, r.1)
  {
    DriveConcat(cfg, key, NEW_LOCAL, NEW_SHARED, labs, more);
  }

  lemma ReachedIsReachable(cfg: Config, key: string, labs: seq<Label>, l: Local, sh: Shared)
    requires Reached(cfg, key, labs, l, sh)
    ensures Reachable(cfg, key, l, sh)
  {
    DrivenReachable(cfg, key, labs);
  }

  lemma ReachedInv(cfg: Config, key: string, labs: seq<Label>, l: Local, sh: Shared)
    requires Reached(cfg, key, labs, l, sh)
    ensures Inv(cfg.kind, key, l, sh) && Provenance(cfg, l, sh)
  {
    InitialInv(cfg.kind, World(map[key := NEW_LOCAL], NEW_SHARED));
    DriveKeeps(cfg, key, NEW_LOCAL, NEW_SHARED, labs);
    DriveProvenance(cfg, key, NEW_LOCAL, NEW_SHARED, labs);
  }

  lemma {:induction false} DriveProvenance(cfg: Config, key: string, l: Local, sh: Shared, labs: seq<Label>)
    requires Inv(cfg.kind, key, l, sh) && Provenance(cfg, l, sh) && Drive(cfg, key, l, sh, labs).Some?
    ensures var r := Drive(cfg, key, l, sh, labs).value; Provenance(cfg, r.0, r.1)
    decreases |labs|
  {
    hide Next, Inv, Provenance;
    if labs != [] {
      ProvenanceStep(cfg, key, l, sh, labs[0]);
      StepKeeps(cfg, key, l, sh, labs[0]);
      var (l', sh') := Next(cfg, key, l, sh, labs[0]);
      DriveProvenance(cfg, key, l', sh', labs[1..]);
    }
  }

  // Left alone, a key that is at peace converges.
  lemma Settles(cfg: Config, key: string, labs: seq<Label>, l: Local, sh: Shared, id: string)
    returns (labs': seq<Label>, l': Local, sh': Shared)
    requires Reached(cfg, key, labs, l, sh) && AtPeace(cfg.kind, key, l, sh)
    requires id != "" && (Measure(cfg.kind, l, sh) >= 6 ==> id !in sh.cloud)
    ensures Reached(cfg, key, labs', l', sh') && AtPeace(cfg.kind, key, l', sh') && Converged(cfg.kind, l', sh')
    ensures Kept(l, sh, l', sh')
  {
    hide AtPeace, Measure, Converged, Drive, Kept, Rounds;
    var life := ReadyLife(cfg.kind);
    Converges(cfg, key, l, sh, id, life, 7);
    var r := Rounds(cfg, key, l, sh, id, life, 7);
    RoundsNeverApply(cfg, key, l, sh, id, life, 7);
    var more := RoundsDriven(cfg, key, l, sh, id, life, 7);
    ReachOn(cfg, key, labs, l, sh, more);
    labs', l', sh' := labs + more, r.value.0, r.value.1;
  }

  ghost function Created(kind: Kind, key: string, spec: Spec): Local {
    NEW_LOCAL.(versions := [None] + [Some(Born(kind, key, spec))])
  }

  lemma Starts(cfg: Config, key: string, spec: Spec) returns (labs: seq<Label>)
    requires SpecOk(cfg.kind, spec)
    ensures Reached(cfg, key, labs, Created(cfg.kind, key, spec), Shared(1, map[], {}))
    ensures AtPeace(cfg.kind, key, Created(cfg.kind, key, spec), Shared(1, map[], {}))
  {
    var l, sh := Created(cfg.kind, key, spec), Shared(1, map[], {});
    labs := [UserCreate(spec, {Finalizer(cfg.kind)})] + [];
    Creates(cfg, key, spec, []);
    DriveNone(cfg, key, l, sh);
    ReachedInv(cfg, key, labs, l, sh);
  }

  // A converged object of generation 1 with its resource made for it.
  ghost predicate Provisioned(cfg: Config, key: string, l: Local, sh: Shared, spec: Spec) {
    && AtPeace(cfg.kind, key, l, sh) && Converged(cfg.kind, l, sh)
    && var o := Last(l.versions).value;
       && o.spec == spec && o.generation == 1 && o.status.observed == 1
       && o.status.id in sh.cloud && sh.cloud[o.status.id].generation == 1
       && sh.cloud[o.status.id].request == cfg.request(spec)
  }

  lemma Provisions(cfg: Config, key: string, spec: Spec, id: string)
    returns (labs: seq<Label>, l: Local, sh: Shared)
    requires SpecOk(cfg.kind, spec) && id != ""
    ensures Reached(cfg, key, labs, l, sh) && Provisioned(cfg, key, l, sh, spec)
  {
    hide Inv;
    var start := Starts(cfg, key, spec);
    var l0, sh0 := Created(cfg.kind, key, spec), Shared(1, map[], {});
    labs, l, sh := Settles(cfg, key, start, l0, sh0, id);
    ReachedInv(cfg, key, labs, l, sh);
    ConvergedStatus(cfg.kind, key, l, sh);
  }

  lemma EditOnce(cfg: Config, key: string, l: Local, sh: Shared, spec: Spec)
    requires Inv(cfg.kind, key, l, sh) && Last(l.versions).Some? && Last(l.versions).value.spec != spec
    requires SpecOk(cfg.kind, spec)
    ensures var r := Drive(cfg, key, l, sh, [UserEdit(spec)]); var o := Last(l.versions).value;
      && r.Some? && Inv(cfg.kind, key, r.value.0, r.value.1) && r.value.0.worker == l.worker
      && Last(r.value.0.versions) == Some(o.(spec := spec, generation := o.generation + 1, rv := sh.clock))
      && r.value.1 == sh.(clock := sh.clock + 1)
  {
    hide Drive;
    assert VersionOk(cfg.kind, key, sh, |l.versions| - 1, Last(l.versions).value);
    StepKeeps(cfg, key, l, sh, UserEdit(spec));
    DriveLast(cfg, key, l, sh, UserEdit(spec));
  }

  // ---- An edit after provisioning is observed and never applied ----

  // Converged for an edited spec, on a resource made from the spec before it.
  ghost predicate Stale(cfg: Config, key: string, l: Local, sh: Shared, sent: Spec, edited: Spec) {
    && AtPeace(cfg.kind, key, l, sh) && Converged(cfg.kind, l, sh)
    && var o := Last(l.versions).value;
       && o.spec == edited && o.generation == o.status.observed == 2
       && o.status.id in sh.cloud && sh.cloud[o.status.id].generation == 1
       && sh.cloud[o.status.id].request == cfg.request(sent)
  }

  lemma EditKeepsPeace(cfg: Config, key: string, l: Local, sh: Shared, spec: Spec, edited: Spec)
    requires Provisioned(cfg, key, l, sh, spec) && spec != edited && SpecOk(cfg.kind, edited)
    ensures var r := Drive(cfg, key, l, sh, [UserEdit(edited)]);
      && r.Some? && AtPeace(cfg.kind, key, r.value.0, r.value.1) && r.value.1.cloud == sh.cloud
      && Measure(cfg.kind, r.value.0, r.value.1) < 6
      && var a, b := Last(l.versions).value, Last(r.value.0.versions).value;
         b.spec == edited && b.generation == 2 && b.status == a.status
  {
    hide Inv, Drive;
    EditOnce(cfg, key, l, sh, edited);
  }

  // For any two specs: the edited object ends up converged, its new generation observed, and
  // its only recorded resource is still the one requested from the old spec.
  lemma StaleRun(cfg: Config, key: string, spec: Spec, edited: Spec, id: string)
    requires spec != edited && SpecOk(cfg.kind, spec) && SpecOk(cfg.kind, edited) && id != ""
    ensures exists l, sh :: Reachable(cfg, key, l, sh) && Stale(cfg, key, l, sh, spec, edited)
  {
    hide Inv, Drive, AtPeace, Reachable;
    var labs, l, sh := Provisions(cfg, key, spec, id);
    ConvergedStatus(cfg.kind, key, l, sh);
    EditKeepsPeace(cfg, key, l, sh, spec, edited);
    var r := Drive(cfg, key, l, sh, [UserEdit(edited)]).value;
    ReachOn(cfg, key, labs, l, sh, [UserEdit(edited)]);
    var labs2, l2, sh2 := Settles(cfg, key, labs + [UserEdit(edited)], r.0, r.1, id);
    KeptId(cfg.kind, key, r.0, r.1, l2, sh2);
    ConvergedStatus(cfg.kind, key, l2, sh2);
    ReachedIsReachable(cfg, key, labs2, l2, sh2);
    assert Stale(cfg, key, l2, sh2, spec, edited);
  }

  // What is kept on the stored object includes its ID and its failure reason.
  lemma KeptId(kind: Kind, key: string, l: Local, sh: Shared, l': Local, sh': Shared)
    requires Kept(l, sh, l', sh') && AtPeace(kind, key, l', sh')
    ensures var a, b := Last(l.versions).value, Last(l'.versions).value;
      && (a.status.id != "" ==> b.status.id == a.status.id)
      && (a.status.reason != "" ==> b.status.reason != "")
  {
    var n := |l.versions|;
    assert n < |l'.versions| ==> Follows(l'.versions[n - 1], l'.versions[|l'.versions| - 1]);
  }

  // ---- A failure reason outlives the failure ----

  ghost predicate ReadyWithReason(kind: Kind, o: Obj) {
    o.status.phase == ReadyPhase(kind) && o.status.observed == o.generation && o.status.reason != ""
  }

  ghost function FailsToStart(why: string): seq<Label> {
    [CacheMove(1)] + ([Dequeue] + ([CallGet(true)] + ([ClientFails(why)]
      + ([CacheMove(1)] + ([CallGet(true)] + ([CallWrite(Reply)] + ([Finish] + [])))))))
  }

  // No client can be made; the object is marked Failed for generation 1.
  lemma FailsFirst(cfg: Config, key: string, spec: Spec, why: string)
    requires why != "" && SpecOk(cfg.kind, spec)
    ensures var r := Drive(cfg, key, Created(cfg.kind, key, spec), Shared(1, map[], {}), FailsToStart(why));
      && r.Some? && Last(r.value.0.versions).Some? && r.value.0.worker.Idle? && r.value.1.cloud == map[]
      && var o, b := Last(r.value.0.versions).value, Born(cfg.kind, key, spec);
         SameSpec(b, o) && o.finalizers == b.finalizers && o.status == Status("", Failed, why, 1)
  {
    hide Drive, Next;
    var l, sh, o := Created(cfg.kind, key, spec), Shared(1, map[], {}), Born(cfg.kind, key, spec);
    var mark := [CallWrite(Reply)] + ([Finish] + []);
    var refetch := [CacheMove(1)] + ([CallGet(true)] + mark);
    ReadsFirst(cfg, key, l, sh, o, [ClientFails(why)] + refetch);
    var l1 := l.(view := 1, worker := NeedClient(o));
    ClientFailsStep(cfg, key, l1, sh, why, refetch);
    var l2 := l1.(worker := Refetching(None, why));
    RefetchStep(cfg, key, l2, sh, 1, o, mark);
    var l3 := l2.(view := 1, queued := true, worker := MarkingFailed(o, None, why));
    MarkStep(cfg, key, l3, sh, []);
    var v := o.(status := o.status.(phase := Failed, reason := why, observed := 1), rv := 1);
    DriveNone(cfg, key, l3.(versions := l3.versions + [Some(v)], worker := Idle), Shared(2, map[], {}));
  }

  lemma ReadsFirst(cfg: Config, key: string, l: Local, sh: Shared, o: Obj, rest: seq<Label>)
    requires Shape(l) && l.worker.Idle? && |l.versions| == 2 && l.versions[1] == Some(o)
    requires !o.deleting && Finalizer(cfg.kind) in o.finalizers && !FailedForGeneration(o)
    ensures Drive(cfg, key, l, sh, [CacheMove(1)] + ([Dequeue] + ([CallGet(true)] + rest)))
         == Drive(cfg, key, l.(view := 1, queued := false, worker := NeedClient(o)), sh, rest)
  {
    hide Drive;
    DriveStep(cfg, key, l, sh, CacheMove(1), [Dequeue] + ([CallGet(true)] + rest));
    Opening(cfg, key, l.(view := 1, queued := true), sh, rest);
  }

  lemma ClientFailsStep(cfg: Config, key: string, l: Local, sh: Shared, why: string, rest: seq<Label>)
    requires Shape(l) && l.worker.NeedClient? && why != ""
    ensures Drive(cfg, key, l, sh, [ClientFails(why)] + rest)
         == Drive(cfg, key, l.(worker := Refetching(None, why)), sh, rest)
  {
    DriveStep(cfg, key, l, sh, ClientFails(why), rest);
  }

  // After a failure and an edit the object is provisioned and ready, and still carries the
  // reason of a failure it has recovered from.
  lemma RecoveredRun(cfg: Config, key: string, spec: Spec, edited: Spec, id: string, why: string)
    requires spec != edited && SpecOk(cfg.kind, spec) && SpecOk(cfg.kind, edited) && id != "" && why != ""
    ensures exists l, sh :: Reachable(cfg, key, l, sh) && Last(l.versions).Some?
                            && ReadyWithReason(cfg.kind, Last(l.versions).value)
  {
    hide Inv, Drive, Reachable, FailsToStart;
    var labs := Starts(cfg, key, spec);
    var l0, sh0 := Created(cfg.kind, key, spec), Shared(1, map[], {});
    FailsFirst(cfg, key, spec, why);
    var r := Drive(cfg, key, l0, sh0, FailsToStart(why)).value;
    ReachOn(cfg, key, labs, l0, sh0, FailsToStart(why));
    ReachedInv(cfg, key, labs + FailsToStart(why), r.0, r.1);
    EditOnce(cfg, key, r.0, r.1, edited);
    var e := Drive(cfg, key, r.0, r.1, [UserEdit(edited)]).value;
    ReachOn(cfg, key, labs + FailsToStart(why), r.0, r.1, [UserEdit(edited)]);
    var labs2, l2, sh2 := Settles(cfg, key, labs + FailsToStart(why) + [UserEdit(edited)], e.0, e.1, id);
    KeptId(cfg.kind, key, e.0, e.1, l2, sh2);
    ConvergedStatus(cfg.kind, key, l2, sh2);
    ReachedIsReachable(cfg, key, labs2, l2, sh2);
  }

  // ---- What the cloud does on its own ----

  lemma Moves(cfg: Config, key: string, l: Local, sh: Shared, id: string, life: Life)
    requires Inv(cfg.kind, key, l, sh) && Last(l.versions).Some? && Last(l.versions).value.status.id == id
    requires id in sh.cloud
    ensures Drive(cfg, key, l, sh, [CloudMove(id, life)]) == Some((l, NextCloudMove(cfg.kind, sh, id, life)))
  {
    assert VersionOk(cfg.kind, key, sh, |l.versions| - 1, Last(l.versions).value);
    DriveLast(cfg, key, l, sh, CloudMove(id, life));
  }

  // An object of generation 1 that shows what its resource, made for it, is reported to be.
  ghost predicate Reports(cfg: Config, key: string, l: Local, sh: Shared, spec: Spec, life: Life) {
    && Resting(cfg.kind, key, l, sh)
    && var o := Last(l.versions).value;
       && o.spec == spec && o.generation == o.status.observed == 1 && Says(cfg.kind, o.status.phase, life)
       && o.status.id in sh.cloud
       && var r := sh.cloud[o.status.id];
          && r.generation == 1 && r.request == cfg.request(spec) && r.life == life && !r.accepted
  }

  // After provisioning the cloud moves to a lifecycle state and is polled: it is reported.
  lemma ReportsRun(cfg: Config, key: string, spec: Spec, id: string, life: Life)
    returns (labs: seq<Label>, l: Local, sh: Shared)
    requires SpecOk(cfg.kind, spec) && id != "" && !OnTrack(cfg.kind, life)
    ensures Reached(cfg, key, labs, l, sh) && Reports(cfg, key, l, sh, spec, life)
  {
    hide Inv, Drive, Committed, Calls, Wake, Rouse, AtPeace, Converged, OnTrack, PhaseOf;
    var labs0, l0, sh0 := Provisions(cfg, key, spec, id);
    ConvergedStatus(cfg.kind, key, l0, sh0);
    Rouses(cfg, key, l0, sh0);
    ReachOn(cfg, key, labs0, l0, sh0, Wake(l0));
    var labs1, l1 := labs0 + Wake(l0), Rouse(l0);
    RousedReady(cfg.kind, key, l1, sh0);
    var o := Last(l1.versions).value;
    var it := o.status.id;
    ReachedInv(cfg, key, labs1, l1, sh0);
    Moves(cfg, key, l1, sh0, it, life);
    var sh1 := NextCloudMove(cfg.kind, sh0, it, life);
    ReachOn(cfg, key, labs1, l1, sh0, [CloudMove(it, life)]);
    ReconcileSync(cfg, key, l1, sh1, id, life);
    var calls := Calls(cfg.kind, o, id, life);
    var r := Drive(cfg, key, l1, sh1, calls).value;
    ReachOn(cfg, key, labs1 + [CloudMove(it, life)], l1, sh1, calls);
    labs, l, sh := labs1 + [CloudMove(it, life)] + calls, r.0, r.1;
    ReachedInv(cfg, key, labs, l, sh);
    SyncReports(cfg.kind, o, life, sh1.clock);
    Unaccepted(cfg.kind, key, l, sh);
  }

  lemma SyncReports(kind: Kind, o: Obj, life: Life, rv: nat)
    requires !o.deleting && !OnTrack(kind, life)
    ensures var v := Committed(kind, Syncing(o, life), o, rv);
      && v.Some? && SameSpec(o, v.value)
      && Says(kind, v.value.status.phase, life) && v.value.status.observed == o.generation
      && v.value.status.id == o.status.id
  {
  }

  lemma Unaccepted(kind: Kind, key: string, l: Local, sh: Shared)
    requires Inv(kind, key, l, sh) && Last(l.versions).Some? && !Last(l.versions).value.deleting
    ensures Last(l.versions).value.status.id in sh.cloud ==> !sh.cloud[Last(l.versions).value.status.id].accepted
  {
  }

  lemma RousedReady(kind: Kind, key: string, l: Local, sh: Shared)
    requires Roused(kind, key, l, sh)
    ensures Ready(l)
  {
  }

  // Somebody else terminates the resource of an object nobody has edited or deleted. The
  // object says so, and that is all: ConvergesExactly and NeverAgain tell what follows.
  lemma GoneRun(cfg: Config, key: string, spec: Spec, id: string)
    requires SpecOk(cfg.kind, spec) && id != ""
    ensures exists l, sh :: Reachable(cfg, key, l, sh) && Reports(cfg, key, l, sh, spec, TerminatedState)
                            && Last(l.versions).value.status.phase
                               == (match cfg.kind case Instance => Terminated case Policy => Deleted)
  {
    hide Reachable, Reached, Resting;
    var labs, l, sh := ReportsRun(cfg, key, spec, id, TerminatedState);
    ReachedIsReachable(cfg, key, labs, l, sh);
  }

  // ---- A failure outlives its cause ----

  // Failed for the current generation, while the cloud reports the ready state.
  ghost predicate Stuck(kind: Kind, l: Local, sh: Shared) {
    && l.worker.Idle? && Last(l.versions).Some?
    && var o := Last(l.versions).value;
       && FailedForGeneration(o) && !o.deleting && o.status.id in sh.cloud
       && sh.cloud[o.status.id].life == ReadyLife(kind)
  }

  // The cloud reports a state that has no phase, at the moment it is polled, and recovers:
  // the object stays Failed, and by FailedIsFinal and FailedReadCallsNothing it will not be
  // looked at again until its spec changes.
  lemma StuckRun(cfg: Config, key: string, spec: Spec, id: string)
    requires SpecOk(cfg.kind, spec) && id != ""
    ensures exists l, sh :: Reachable(cfg, key, l, sh) && Stuck(cfg.kind, l, sh)
  {
    hide Inv, Drive, Reachable;
    var labs, l, sh := ReportsRun(cfg, key, spec, id, OtherState);
    var it := Last(l.versions).value.status.id;
    Moves(cfg, key, l, sh, it, ReadyLife(cfg.kind));
    ReachOn(cfg, key, labs, l, sh, [CloudMove(it, ReadyLife(cfg.kind))]);
    var sh' := NextCloudMove(cfg.kind, sh, it, ReadyLife(cfg.kind));
    ReachedIsReachable(cfg, key, labs + [CloudMove(it, ReadyLife(cfg.kind))], l, sh');
    assert Stuck(cfg.kind, l, sh');
  }

  // ---- A failure of the operator is blamed on the object ----

  ghost function FailsLater(p: nat, why: string): seq<Label> {
    [Dequeue] + ([CallGet(true)] + ([ClientFails(why)]
      + ([CacheMove(p)] + ([CallGet(true)] + ([CallWrite(Reply)] + ([Finish] + []))))))
  }

  lemma FailsForClient(cfg: Config, key: string, l: Local, sh: Shared, why: string)
    requires Ready(l) && Finalizer(cfg.kind) in Last(l.versions).value.finalizers
    requires Last(l.versions).value.status.phase != Failed && why != ""
    ensures var r := Drive(cfg, key, l, sh, FailsLater(|l.versions| - 1, why)); var o := Last(l.versions).value;
      && r.Some? && r.value.0.worker.Idle? && r.value.1.cloud == sh.cloud && Last(r.value.0.versions).Some?
      && var v := Last(r.value.0.versions).value;
         SameSpec(o, v) && v.status == o.status.(phase := Failed, reason := why, observed := o.generation)
  {
    hide Drive, Next;
    var p, o := |l.versions| - 1, Last(l.versions).value;
    var mark := [CallWrite(Reply)] + ([Finish] + []);
    var refetch := [CacheMove(p)] + ([CallGet(true)] + mark);
    Opening(cfg, key, l, sh, [ClientFails(why)] + refetch);
    var l1 := Woken(l, NeedClient(o));
    ClientFailsStep(cfg, key, l1, sh, why, refetch);
    var l2 := l1.(worker := Refetching(None, why));
    RefetchStep(cfg, key, l2, sh, p, o, mark);
    var l3 := l2.(view := p, queued := true, worker := MarkingFailed(o, None, why));
    MarkStep(cfg, key, l3, sh, []);
    var v := o.(status := o.status.(phase := Failed, reason := why, observed := o.generation), rv := sh.clock);
    DriveNone(cfg, key, l3.(versions := l3.versions + [Some(v)], worker := Idle), sh.(clock := sh.clock + 1));
  }

  // From a converged object, with nothing done by any user and nothing changed in the cloud,
  // one failure to make a client leads to Failed for the current generation.
  lemma BlamedRun(cfg: Config, key: string, spec: Spec, id: string, why: string)
    requires SpecOk(cfg.kind, spec) && id != "" && why != ""
    ensures exists l0, sh0, labs, r ::
      && Reachable(cfg, key, l0, sh0) && Provisioned(cfg, key, l0, sh0, spec)
      && Leads(cfg, key, l0, sh0, labs, r) && r.value.1.cloud == sh0.cloud && Stuck(cfg.kind, r.value.0, r.value.1)
  {
    hide Inv, Drive, Reachable, Wake, Rouse, AtPeace, Converged, FailsLater, Unattended;
    var start, l0, sh0 := Provisions(cfg, key, spec, id);
    ReachedIsReachable(cfg, key, start, l0, sh0);
    ConvergedStatus(cfg.kind, key, l0, sh0);
    Rouses(cfg, key, l0, sh0);
    WakeUnattended(l0);
    RousedReady(cfg.kind, key, Rouse(l0), sh0);
    var p := |l0.versions| - 1;
    FailsForClient(cfg, key, Rouse(l0), sh0, why);
    var r0, r := Drive(cfg, key, l0, sh0, Wake(l0)), Drive(cfg, key, Rouse(l0), sh0, FailsLater(p, why));
    FailsUnattended(p, why);
    LeadsOn(cfg, key, l0, sh0, Wake(l0), r0, FailsLater(p, why), r);
  }

  lemma FailsUnattended(p: nat, why: string)
    ensures Unattended(FailsLater(p, why))
  {
  }
}
