// Where convergence stops: resources that are not on their way to ready.
module OffTrack {
  import opened Resources
  import opened Machine
  import opened Invariants
  import opened Preservation
  import opened PreservationWrites
  import opened Convergence
  import opened Drift
  import opened StatusChanges

  // Idle, for an object that has its ID, and a resource in this lifecycle state.
  ghost predicate Holding(kind: Kind, key: string, l: Local, sh: Shared, it: string, life: Life) {
    && Resting(kind, key, l, sh) && it != "" && Last(l.versions).value.status.id == it
    && it in sh.cloud && sh.cloud[it].life == life
  }

  // The stored phase is that of the lifecycle state, for the current generation.
  ghost predicate Shown(kind: Kind, l: Local, life: Life) {
    && Last(l.versions).Some?
    && var o := Last(l.versions).value;
       Says(kind, o.status.phase, life) && o.status.observed == o.generation
  }

  // A stored ID comes with our finalizer while the object is not deleting.
  lemma HoldingFinalizer(kind: Kind, key: string, l: Local, sh: Shared, it: string, life: Life)
    requires Holding(kind, key, l, sh, it, life)
    ensures Finalizer(kind) in Last(l.versions).value.finalizers && !sh.cloud[it].accepted
  {
    assert VersionOk(kind, key, sh, |l.versions| - 1, Last(l.versions).value);
  }

  lemma SyncShows(kind: Kind, o: Obj, life: Life, rv: nat)
    requires !o.deleting && !OnTrack(kind, life)
    ensures var v := Committed(kind, Syncing(o, life), o, rv);
      && v.Some? && !v.value.deleting && v.value.status.id == o.status.id
      && Says(kind, v.value.status.phase, life) && v.value.status.observed == v.value.generation
      && (Says(kind, o.status.phase, life) && o.status.observed == o.generation ==> v.value == o)
  {
  }

  // What a round does around an off-track resource.
  ghost predicate Shows(kind: Kind, key: string, l: Local, sh: Shared, it: string, life: Life,
                        r: Option<(Local, Shared)>)
    requires Last(l.versions).Some?
  {
    && r.Some? && Holding(kind, key, r.value.0, r.value.1, it, life) && r.value.1.cloud == sh.cloud
    && (!FailedForGeneration(Last(l.versions).value) ==> Shown(kind, r.value.0, life))
    && (Shown(kind, l, life) ==> Shown(kind, r.value.0, life) && r.value.0.versions == l.versions)
  }

  lemma NoSettling(cfg: Config, key: string, l: Local, sh: Shared, it: string, life: Life)
    requires Holding(cfg.kind, key, l, sh, it, life) && !OnTrack(cfg.kind, life)
    ensures Drive(cfg, key, l, sh, Settling(cfg.kind, l, sh)) == Some((l, sh))
  {
    hide Inv;
    DriveNone(cfg, key, l, sh);
  }

  // A poll, then a sync that shows the state.
  lemma SyncShownRound(cfg: Config, key: string, l: Local, sh: Shared, it: string, lf: Life, id: string, life: Life)
    requires Holding(cfg.kind, key, l, sh, it, lf) && !OnTrack(cfg.kind, lf) && Attentive(l)
    requires !FailedForGeneration(Last(l.versions).value)
    ensures Shows(cfg.kind, key, l, sh, it, lf, Turn(cfg, key, l, sh, id, life))
  {
    var o := Last(l.versions).value;
    HoldingFinalizer(cfg.kind, key, l, sh, it, lf);
    DriveKeeps(cfg, key, l, sh, Calls(cfg.kind, o, id, life));
    hide Inv, Drive, Committed, Calls, Settling, Finalizer, FailedForGeneration, OnTrack, PhaseOf;
    ReadyFrom(l);
    ReconcileSync(cfg, key, l, sh, id, life);
    SyncShows(cfg.kind, o, lf, sh.clock);
    var r := Reconciled(cfg, key, l, sh, id, life);
    NoSettling(cfg, key, r.value.0, r.value.1, it, lf);
  }

  lemma ReadyFrom(l: Local)
    requires Attentive(l) && Last(l.versions).Some? && !Last(l.versions).value.deleting
    requires !FailedForGeneration(Last(l.versions).value)
    ensures Ready(l)
  {
  }

  // A reconcile that reads a Failed object and stops.
  lemma FailedRound(cfg: Config, key: string, l: Local, sh: Shared, it: string, lf: Life, id: string, life: Life)
    requires Holding(cfg.kind, key, l, sh, it, lf) && !OnTrack(cfg.kind, lf) && Attentive(l)
    requires FailedForGeneration(Last(l.versions).value)
    ensures Shows(cfg.kind, key, l, sh, it, lf, Turn(cfg, key, l, sh, id, life))
    ensures Turn(cfg, key, l, sh, id, life).value.0.versions == l.versions
  {
    var o := Last(l.versions).value;
    HoldingFinalizer(cfg.kind, key, l, sh, it, lf);
    assert Calls(cfg.kind, o, id, life) == [Dequeue] + ([CallGet(true)] + [Finish]);
    DriveKeeps(cfg, key, l, sh, Calls(cfg.kind, o, id, life));
    StopsAtFailed(cfg, key, l, sh);
    hide Inv, Drive, Calls, Settling, Finalizer, FailedForGeneration, OnTrack, PhaseOf;
    var r := Reconciled(cfg, key, l, sh, id, life);
    NoSettling(cfg, key, r.value.0, r.value.1, it, lf);
  }

  lemma StopsAtFailed(cfg: Config, key: string, l: Local, sh: Shared)
    requires Attentive(l) && Last(l.versions).Some?
    requires var o := Last(l.versions).value;
      !o.deleting && Finalizer(cfg.kind) in o.finalizers && FailedForGeneration(o)
    ensures Drive(cfg, key, l, sh, [Dequeue] + ([CallGet(true)] + [Finish])) == Some((l.(queued := false), sh))
  {
    hide Drive;
    Opening(cfg, key, l, sh, [Finish]);
    DriveLast(cfg, key, Woken(l, Returned(Stop)), sh, Finish);
  }

  lemma OffTrackRound(cfg: Config, key: string, l: Local, sh: Shared, it: string, lf: Life, id: string, life: Life)
    requires Holding(cfg.kind, key, l, sh, it, lf) && !OnTrack(cfg.kind, lf)
    ensures Shows(cfg.kind, key, l, sh, it, lf, Round(cfg, key, l, sh, id, life))
  {
    hide Inv, Drive, Wake, Rouse, Turn, FailedForGeneration, OnTrack, PhaseOf, Attentive;
    WakesUp(cfg, key, l, sh);
    if Rouse(l).queued {
      if FailedForGeneration(Last(l.versions).value) {
        FailedRound(cfg, key, Rouse(l), sh, it, lf, id, life);
      } else {
        SyncShownRound(cfg, key, Rouse(l), sh, it, lf, id, life);
      }
    }
  }

  // Any number of undisturbed rounds around an off-track resource: its state is shown after
  // the first, the cloud is left as it is, and once shown nothing changes any more.
  lemma {:induction false} StaysOffTrack(cfg: Config, key: string, l: Local, sh: Shared, it: string, lf: Life,
                                         id: string, life: Life, n: nat)
    requires Holding(cfg.kind, key, l, sh, it, lf) && !OnTrack(cfg.kind, lf)
    requires !FailedForGeneration(Last(l.versions).value) || Shown(cfg.kind, l, lf)
    ensures var r := Rounds(cfg, key, l, sh, id, life, n);
      && r.Some? && Holding(cfg.kind, key, r.value.0, r.value.1, it, lf) && r.value.1.cloud == sh.cloud
      && (n > 0 || Shown(cfg.kind, l, lf) ==> Shown(cfg.kind, r.value.0, lf))
      && (Shown(cfg.kind, l, lf) ==> r.value.0.versions == l.versions)
    decreases n
  {
    hide Inv, Round, OnTrack, Holding, Shown, FailedForGeneration;
    if n > 0 {
      OffTrackRound(cfg, key, l, sh, it, lf, id, life);
      var r := Round(cfg, key, l, sh, id, life);
      StaysOffTrack(cfg, key, r.value.0, r.value.1, it, lf, id, life, n - 1);
    }
  }

  ghost predicate Healthy(kind: Kind, key: string, l: Local, sh: Shared) {
    AtPeace(kind, key, l, sh) && Converged(kind, l, sh)
  }

  lemma ShownNotReady(kind: Kind, l: Local, life: Life)
    requires Shown(kind, l, life) && !OnTrack(kind, life)
    ensures Last(l.versions).value.status.phase != ReadyPhase(kind)
  {
  }

  lemma HoldingAtPeace(kind: Kind, key: string, l: Local, sh: Shared, it: string, life: Life)
    requires Holding(kind, key, l, sh, it, life)
    ensures AtPeace(kind, key, l, sh) <==> !FailedForGeneration(Last(l.versions).value) && OnTrack(kind, life)
    ensures Measure(kind, l, sh) < 6
  {
    HoldingFinalizer(kind, key, l, sh, it, life);
  }

  // From any idle state of an object that has its ID and is neither Failed nor deleting,
  // undisturbed rounds end converged exactly if the resource is on its way to ready. If it is
  // not, say terminated by somebody else, its state is shown and nothing is done about it.
  lemma ConvergesExactly(cfg: Config, key: string, l: Local, sh: Shared, it: string, lf: Life,
                         id: string, life: Life, n: nat)
    requires Holding(cfg.kind, key, l, sh, it, lf) && !FailedForGeneration(Last(l.versions).value)
    requires n >= 7 && id != "" && OnTrack(cfg.kind, life)
    ensures var r := Rounds(cfg, key, l, sh, id, life, n);
      && r.Some?
      && (Healthy(cfg.kind, key, r.value.0, r.value.1) <==> OnTrack(cfg.kind, lf))
      && (!OnTrack(cfg.kind, lf) ==>
            && Holding(cfg.kind, key, r.value.0, r.value.1, it, lf) && r.value.1.cloud == sh.cloud
            && Shown(cfg.kind, r.value.0, lf) && Last(r.value.0.versions).value.status.phase != ReadyPhase(cfg.kind))
  {
    hide Inv, AtPeace, Converged, Rounds, OnTrack, Measure, Holding, Says, FailedForGeneration;
    HoldingAtPeace(cfg.kind, key, l, sh, it, lf);
    if OnTrack(cfg.kind, lf) {
      Converges(cfg, key, l, sh, id, life, n);
    } else {
      StaysOffTrack(cfg, key, l, sh, it, lf, id, life, n);
      var r := Rounds(cfg, key, l, sh, id, life, n);
      HoldingAtPeace(cfg.kind, key, r.value.0, r.value.1, it, lf);
      ShownNotReady(cfg.kind, r.value.0, lf);
    }
  }
}
