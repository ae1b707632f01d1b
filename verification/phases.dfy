// The phases the reconcilers write: true to the cloud, and never going back.
module Phases {
  import opened Resources
  import opened Machine
  import opened Invariants
  import opened Preservation
  import opened PreservationWrites
  import opened Worlds
  import opened Safety
  import opened Launches
  import opened Requests
  import opened StatusChanges

  // ---- A synced phase is what the cloud reported in that reconcile ----

  ghost predicate PolledAt(ws: seq<World>, es: seq<Event>, j: nat, key: string, o: Obj, life: Life) {
    j < |es| < |ws| && es[j] == Event(key, CallPoll(true))
    && key in ws[j].locals && ws[j].locals[key].worker == Polling(o)
    && o.status.id in ws[j].shared.cloud && ws[j].shared.cloud[o.status.id].life == life
  }

  lemma EnterSyncing(cfg: Config, key: string, l: Local, sh: Shared, lab: Label, o: Obj, life: Life)
    requires Shape(l) && Enabled(cfg, key, l, sh, lab)
    requires Next(cfg, key, l, sh, lab).0.worker == Syncing(o, life) && l.worker != Syncing(o, life)
    ensures lab == CallPoll(true) && l.worker == Polling(o)
    ensures o.status.id in sh.cloud && sh.cloud[o.status.id].life == life
  {
    hide Dispatch, Sent, Committed, Setback;
    if lab.CallGet? {
      DispatchStarts(cfg.kind, l.versions[l.view]);
    }
    match lab
    case CallGet(_) =>
    case CallWrite(_) =>
    case CallLaunch(out, _, _, _) => match out { case LaunchOk => case LaunchHidden => case LaunchError => }
    case CallPoll(_) =>
    case UserCreate(_, _) =>
    case UserEdit(_) =>
    case UserMeta(_) =>
    case UserDelete =>
    case _ =>
  }

  lemma {:induction false} PolledFirst(cfg: Config, ws: seq<World>, es: seq<Event>, i: nat, key: string, o: Obj,
      life: Life)
    requires IsRun(cfg, ws, es) && i < |ws| && key in ws[0].locals
    requires key in ws[i].locals && WorkerAt(ws[i], key) == Syncing(o, life)
    ensures exists j: nat :: PolledAt(ws, es, j, key, o, life) && StandsAt(ws, j, i, key, Syncing(o, life))
  {
    hide Next, Inv;
    if i > 0 {
      KeyStep(cfg, ws, es, i - 1);
      KeyInv(cfg, ws, es, i - 1, key);
      if WorkerAt(ws[i - 1], key) == Syncing(o, life) {
        PolledFirst(cfg, ws, es, i - 1, key, o, life);
        var j: nat :| PolledAt(ws, es, j, key, o, life) && StandsAt(ws, j, i - 1, key, Syncing(o, life));
        assert StandsAt(ws, j, i, key, Syncing(o, life));
      } else {
        EnterSyncing(cfg, key, ws[i - 1].locals[key], ws[i - 1].shared, es[i - 1].lab, o, life);
        assert PolledAt(ws, es, i - 1, key, o, life) && StandsAt(ws, i - 1, i, key, Syncing(o, life));
      }
    }
  }

  lemma SyncStores(kind: Kind, w: Worker, rv: nat)
    requires w.Syncing?
    ensures var v := Committed(kind, w, w.mem, rv);
      && v.Some? && v.value.status.phase == PhaseOf(kind, w.life) && v.value.status.id == w.mem.status.id
  {
  }

  // A sync that commits stores the phase of a lifecycle state that the cloud did report
  // for the recorded ID, polled by the same reconcile.
  lemma SyncTruthful(cfg: Config, ws: seq<World>, es: seq<Event>, i: nat, key: string)
    requires IsRun(cfg, ws, es) && i < |es| && key in ws[0].locals && es[i].key == key && es[i].lab.CallWrite?
    requires key in ws[i].locals && WorkerAt(ws[i], key).Syncing?
    requires Commits(cfg.kind, ws[i].locals[key], es[i].lab.outcome)
    ensures StoredAt(ws[i], key).Some? && StoredAt(ws[i + 1], key).Some?
    ensures var o, b := StoredAt(ws[i], key).value, StoredAt(ws[i + 1], key).value;
      && b.status.id == o.status.id != ""
      && exists j: nat, life :: PolledAt(ws, es, j, key, o, life) && StandsAt(ws, j, i, key, Syncing(o, life))
                                && Says(cfg.kind, b.status.phase, life)
                                && (Named(cfg.kind, life) ==> Rank(b.status.phase) == Order(life))
  {
    hide Next, Committed, Facts, Books, Ledger, Awake;
    KeyInv(cfg, ws, es, i, key);
    KeyStep(cfg, ws, es, i);
    var l, sh := ws[i].locals[key], ws[i].shared;
    CommitFromStored(cfg.kind, key, l, sh, es[i].lab.outcome);
    StepVersions(cfg, key, l, sh, es[i].lab);
    SyncStores(cfg.kind, l.worker, sh.clock);
    PolledFirst(cfg, ws, es, i, key, l.worker.mem, l.worker.life);
    PhaseSays(cfg.kind, PhaseOf(cfg.kind, l.worker.life), l.worker.life);
  }

  // The phases that only a sync writes.
  ghost predicate FromCloud(phase: Phase) {
    phase in {Running, Terminating, Terminated, Deleting, Deleted}
  }

  // An object that is called Running, Terminating, Terminated, Deleting or Deleted was polled
  // before, under the ID it has, and the cloud reported exactly that state.
  lemma {:induction false} StoredPhaseSeen(cfg: Config, ws: seq<World>, es: seq<Event>, i: nat, u: Uid)
    requires IsRun(cfg, ws, es) && i < |ws| && u.key in ws[0].locals && IsStored(ws[i], u)
    requires FromCloud(StoredAt(ws[i], u.key).value.status.phase)
    ensures exists j: nat, o, life ::
      && PolledAt(ws, es, j, u.key, o, life) && j < i && o.uid == u
      && o.status.id == StoredAt(ws[i], u.key).value.status.id
      && Says(cfg.kind, StoredAt(ws[i], u.key).value.status.phase, life)
  {
    hide Next, Inv, PolledAt, StandsAt, PhaseOf, Says;
    KeyInv(cfg, ws, es, i, u.key);
    if i > 0 {
      KeyInv(cfg, ws, es, i - 1, u.key);
      RunStatus(cfg, ws, es, i - 1, u.key);
      if OverwritesAt(cfg.kind, ws, es, i - 1, u.key) {
        var w := WorkerAt(ws[i - 1], u.key);
        OnlySyncSays(cfg.kind, w);
        PhaseSays(cfg.kind, PhaseOf(cfg.kind, w.life), w.life);
        PolledFirst(cfg, ws, es, i - 1, u.key, w.mem, w.life);
        var j: nat :| PolledAt(ws, es, j, u.key, w.mem, w.life)
                      && StandsAt(ws, j, i - 1, u.key, Syncing(w.mem, w.life));
        assert j < i by { StandsBefore(ws, j, i - 1, u.key, w); }
      } else {
        StoredPhaseSeen(cfg, ws, es, i - 1, u);
      }
    }
  }

  lemma StandsBefore(ws: seq<World>, j: nat, i: nat, key: string, w: Worker)
    requires StandsAt(ws, j, i, key, w)
    ensures j < i
  {
  }

  lemma OnlySyncSays(kind: Kind, w: Worker)
    requires WritesStatus(w) && FromCloud(Sent(kind, w).status.phase)
    ensures w.Syncing? && Sent(kind, w).status.phase == PhaseOf(kind, w.life)
    ensures Sent(kind, w).status.id == w.mem.status.id
  {
  }

  // ---- Phases do not go back while the cloud does not ----

  // The cloud never returns to an earlier lifecycle stage.
  ghost predicate Calm(kind: Kind, sh: Shared, lab: Label) {
    lab.CloudMove? && lab.id in sh.cloud ==>
      !Named(kind, lab.life) || sh.cloud[lab.id].high <= Order(lab.life)
  }

  // a and b are states of one object with an ID, and neither is Failed.
  ghost predicate Comparable(a: Option<Obj>, b: Option<Obj>) {
    && a.Some? && b.Some? && a.value.uid == b.value.uid && a.value.status.id != ""
    && a.value.status.phase != Failed && b.value.status.phase != Failed
  }

  ghost predicate Advances(a: Option<Obj>, b: Option<Obj>) {
    Comparable(a, b) ==> Rank(a.value.status.phase) <= Rank(b.value.status.phase)
  }

  // The rank a phase is sure of. A policy is called Active when its creation is accepted,
  // so Active promises no more than Creating does.
  ghost function Firm(kind: Kind, phase: Phase): nat {
    if kind == Policy && Rank(phase) == Rank(Active) then 0 else Rank(phase)
  }

  ghost predicate FirmlyAdvances(kind: Kind, a: Option<Obj>, b: Option<Obj>) {
    Comparable(a, b) ==> Firm(kind, a.value.status.phase) <= Firm(kind, b.value.status.phase)
  }

  // The phase of a version is no further along than n, if it carries id.
  ghost predicate Under(kind: Kind, v: Option<Obj>, id: string, n: nat) {
    v.Some? && v.value.status.id == id && v.value.status.phase != Failed ==> Firm(kind, v.value.status.phase) <= n
  }

  ghost predicate AllUnder(kind: Kind, vs: Versions, id: string, n: nat) {
    forall i | 0 <= i < |vs| :: Under(kind, vs[i], id, n)
  }

  ghost predicate Ordered(kind: Kind, vs: Versions) {
    forall i, j | 0 <= i < j < |vs| :: FirmlyAdvances(kind, vs[i], vs[j])
  }

  ghost predicate LifeHigh(kind: Kind, r: Resource) {
    Named(kind, r.life) ==> Order(r.life) == r.high
  }

  ghost predicate WorkerStage(kind: Kind, vs: Versions, w: Worker, sh: Shared) {
    w.Syncing? && Named(kind, w.life) ==>
      && AllUnder(kind, vs, w.mem.status.id, Stage(kind, w.life))
      && (w.mem.status.id in sh.cloud ==> Stage(kind, w.life) <= sh.cloud[w.mem.status.id].high)
  }

  ghost predicate CloudStage(kind: Kind, key: string, vs: Versions, sh: Shared) {
    forall id | Owned(key, sh, id) :: LifeHigh(kind, sh.cloud[id]) && AllUnder(kind, vs, id, sh.cloud[id].high)
  }

  ghost predicate Staged(kind: Kind, key: string, l: Local, sh: Shared) {
    && Ordered(kind, l.versions)
    && CloudStage(kind, key, l.versions, sh)
    && WorkerStage(kind, l.versions, l.worker, sh)
  }

  // A version may follow if its phase is past all earlier ones of the same ID and within
  // what the cloud has shown.
  lemma StagedPush(kind: Kind, key: string, vs: Versions, sh: Shared, v: Option<Obj>)
    requires History(kind, key, vs + [v], sh)
    requires Ordered(kind, vs) && CloudStage(kind, key, vs, sh)
    requires v.Some? && v.value.status.id != "" && v.value.status.phase != Failed ==>
      && AllUnder(kind, vs, v.value.status.id, Firm(kind, v.value.status.phase))
      && v.value.status.id in sh.cloud && Firm(kind, v.value.status.phase) <= sh.cloud[v.value.status.id].high
    ensures Ordered(kind, vs + [v]) && CloudStage(kind, key, vs + [v], sh)
  {
    var vs', n := vs + [v], |vs|;
    forall i, j | 0 <= i < j < |vs'| ensures FirmlyAdvances(kind, vs'[i], vs'[j]) {
      if j < n {
        assert FirmlyAdvances(kind, vs[i], vs[j]);
      } else {
        assert vs'[i] == vs[i] && vs'[j] == v && Follows(vs'[i], vs'[j]);
        assert v.Some? && v.value.status.id != "" && v.value.status.phase != Failed ==>
          Under(kind, vs[i], v.value.status.id, Firm(kind, v.value.status.phase));
      }
    }
    forall id | Owned(key, sh, id) ensures LifeHigh(kind, sh.cloud[id]) && AllUnder(kind, vs', id, sh.cloud[id].high) {
      assert AllUnder(kind, vs, id, sh.cloud[id].high);
    }
  }

  // The last version of an ID is the furthest along, unless it is Failed.
  lemma LastFurthest(kind: Kind, key: string, vs: Versions, sh: Shared)
    requires History(kind, key, vs, sh) && Ordered(kind, vs) && CloudStage(kind, key, vs, sh)
    requires Last(vs).Some? && Last(vs).value.status.id != "" && Last(vs).value.status.phase != Failed
    ensures var s := Last(vs).value.status;
      && AllUnder(kind, vs, s.id, Firm(kind, s.phase)) && s.id in sh.cloud && Firm(kind, s.phase) <= sh.cloud[s.id].high
  {
    var n, b := |vs| - 1, Last(vs).value;
    assert VersionOk(kind, key, sh, n, b);
    forall i | 0 <= i < |vs| ensures Under(kind, vs[i], b.status.id, Firm(kind, b.status.phase)) {
      if i < n && vs[i].Some? {
        assert VersionOk(kind, key, sh, i, vs[i].value);
        assert FirmlyAdvances(kind, vs[i], vs[n]);
      }
    }
    assert Owned(key, sh, b.status.id);
    assert Under(kind, vs[n], b.status.id, sh.cloud[b.status.id].high);
  }

  ghost predicate SameStatus(vs: Versions, v: Option<Obj>) {
    v.Some? ==> v.value.status.id == "" || (Last(vs).Some? && v.value.status == Last(vs).value.status)
  }

  lemma PushSame(kind: Kind, key: string, vs: Versions, sh: Shared, v: Option<Obj>)
    requires History(kind, key, vs, sh) && History(kind, key, vs + [v], sh.(clock := sh.clock + 1))
    requires Ordered(kind, vs) && CloudStage(kind, key, vs, sh) && SameStatus(vs, v)
    ensures Ordered(kind, vs + [v]) && CloudStage(kind, key, vs + [v], sh.(clock := sh.clock + 1))
  {
    if v.Some? && v.value.status.id != "" && v.value.status.phase != Failed {
      LastFurthest(kind, key, vs, sh);
    }
    var sh' := sh.(clock := sh.clock + 1);
    forall id | Owned(key, sh', id)
      ensures LifeHigh(kind, sh'.cloud[id]) && AllUnder(kind, vs, id, sh'.cloud[id].high)
    {
      assert Owned(key, sh, id);
    }
    StagedPush(kind, key, vs, sh', v);
  }

  lemma PushSameWorker(kind: Kind, vs: Versions, w: Worker, sh: Shared, v: Option<Obj>, sh': Shared)
    requires vs != [] && WorkerStage(kind, vs, w, sh) && SameStatus(vs, v) && sh'.cloud == sh.cloud
    requires w.Syncing? ==> w.mem.status.id != ""
    ensures WorkerStage(kind, vs + [v], w, sh')
  {
    if w.Syncing? && Named(kind, w.life) {
      var id, n := w.mem.status.id, Stage(kind, w.life);
      assert Under(kind, vs[|vs| - 1], id, n);
      forall i | 0 <= i < |vs + [v]| ensures Under(kind, (vs + [v])[i], id, n) {
        assert i < |vs| ==> Under(kind, vs[i], id, n);
      }
    }
  }

  lemma UserStaged(cfg: Config, key: string, l: Local, sh: Shared, lab: Label)
    requires Inv(cfg.kind, key, l, sh) && Enabled(cfg, key, l, sh, lab) && ByUser(lab)
    requires Staged(cfg.kind, key, l, sh)
    ensures var (l', sh') := NextUser(cfg, key, l, sh, lab); Staged(cfg.kind, key, l', sh')
  {
    hide Ordered, CloudStage, WorkerStage, NextUser;
    if Last(l.versions).Some? {
      assert VersionOk(cfg.kind, key, sh, |l.versions| - 1, Last(l.versions).value);
    }
    var v := Entered(key, l, sh, lab);
    UserStores(cfg, key, l, sh, lab);
    UserFacts(cfg, key, l, sh, lab);
    PushSame(cfg.kind, key, l.versions, sh, v);
    PushSameWorker(cfg.kind, l.versions, l.worker, sh, v, sh.(clock := sh.clock + 1));
  }

  lemma CommitStaged(kind: Kind, key: string, l: Local, sh: Shared, out: WriteOutcome)
    requires Inv(kind, key, l, sh) && Commits(kind, l, out) && Staged(kind, key, l, sh)
    ensures var v := Committed(kind, l.worker, l.worker.mem, sh.clock);
      && Last(l.versions) == Some(l.worker.mem)
      && Ordered(kind, Push(l, v).versions) && CloudStage(kind, key, Push(l, v).versions, Tick(l, sh, v))
  {
    hide Ordered, CloudStage, Committed, AllUnder;
    CommitStored(kind, key, l, sh, out);
    var v := Committed(kind, l.worker, l.worker.mem, sh.clock);
    if v != Last(l.versions) {
      CommitStatus(kind, l.versions, l.worker, sh);
      if SameStatus(l.versions, v) {
        PushSame(kind, key, l.versions, sh, v);
      } else {
        CommitRank(kind, key, l, sh, v);
      }
    }
  }

  // A commit keeps the status, or writes Failed, a fence, a fresh ID, or a polled phase.
  lemma CommitStatus(kind: Kind, vs: Versions, w: Worker, sh: Shared)
    requires Writing(w) && WorkerOk(kind, vs, w, sh) && Last(vs) == Some(w.mem)
    ensures var v := Committed(kind, w, w.mem, sh.clock);
      || SameStatus(vs, v)
      || (&& v.Some?
          && (v.value.status.phase != Failed ==>
                || (w.Recording? && v.value.status.id == w.id && v.value.status.phase == CreatedPhase(kind))
                || (w.Syncing? && v.value.status.id == w.mem.status.id
                    && v.value.status.phase == PhaseOf(kind, w.life))))
  {
    match w
    case AddingFinalizer(_) =>
    case Fencing(_) =>
    case Recording(_, _) =>
    case MarkingFailed(_, _, _) =>
    case Syncing(_, _) =>
    case Unfinalizing(_) =>
  }

  lemma UnderFirm(kind: Kind, vs: Versions, id: string, life: Life)
    requires AllUnder(kind, vs, id, Stage(kind, life))
    ensures AllUnder(kind, vs, id, Firm(kind, PhaseOf(kind, life)))
  {
    forall i | 0 <= i < |vs| ensures Under(kind, vs[i], id, Firm(kind, PhaseOf(kind, life))) {
      assert Under(kind, vs[i], id, Stage(kind, life));
    }
  }

  lemma CommitRank(kind: Kind, key: string, l: Local, sh: Shared, v: Option<Obj>)
    requires Inv(kind, key, l, sh) && Staged(kind, key, l, sh) && Writing(l.worker)
    requires History(kind, key, l.versions + [v], sh.(clock := sh.clock + 1))
    requires var w := l.worker;
      && v.Some?
      && (v.value.status.phase != Failed ==>
            || (w.Recording? && v.value.status.id == w.id && v.value.status.phase == CreatedPhase(kind))
            || (w.Syncing? && v.value.status.id == w.mem.status.id && v.value.status.phase == PhaseOf(kind, w.life)))
    ensures Ordered(kind, l.versions + [v]) && CloudStage(kind, key, l.versions + [v], sh.(clock := sh.clock + 1))
  {
    var sh', vs := sh.(clock := sh.clock + 1), l.versions;
    forall id | Owned(key, sh', id)
      ensures LifeHigh(kind, sh'.cloud[id]) && AllUnder(kind, vs, id, sh'.cloud[id].high)
    {
      assert Owned(key, sh, id);
    }
    if v.value.status.phase != Failed && l.worker.Syncing? {
      StoredIdKnownAt(kind, key, vs, sh, l.worker.mem);
      UnderFirm(kind, vs, l.worker.mem.status.id, l.worker.life);
    }
    StagedPush(kind, key, vs, sh', v);
  }

  lemma StoredIdKnownAt(kind: Kind, key: string, vs: Versions, sh: Shared, o: Obj)
    requires History(kind, key, vs, sh) && Known(vs, o) && o.status.id != ""
    ensures Owned(key, sh, o.status.id)
  {
    var i :| 0 <= i < |vs| && vs[i] == Some(o);
    assert VersionOk(kind, key, sh, i, o);
  }

  // ---- Steps that change the cloud ----

  ghost predicate Rises(kind: Kind, sh: Shared, sh': Shared) {
    forall id | id in sh.cloud :: id in sh'.cloud && sh'.cloud[id].owner == sh.cloud[id].owner
      && sh.cloud[id].high <= sh'.cloud[id].high && (LifeHigh(kind, sh.cloud[id]) ==> LifeHigh(kind, sh'.cloud[id]))
  }

  lemma StepRises(cfg: Config, key: string, l: Local, sh: Shared, lab: Label)
    requires Shape(l) && Enabled(cfg, key, l, sh, lab) && Calm(cfg.kind, sh, lab)
    ensures Rises(cfg.kind, sh, Next(cfg, key, l, sh, lab).1)
    ensures !lab.CallLaunch? ==> Next(cfg, key, l, sh, lab).1.cloud.Keys == sh.cloud.Keys
  {
    hide Dispatch, Sent, Committed, Setback, AfterWrite;
    match lab
    case CallLaunch(out, _, _, _) => match out { case LaunchOk => case LaunchHidden => case LaunchError => }
    case _ =>
  }

  lemma CloudStageRises(kind: Kind, key: string, vs: Versions, sh: Shared, sh': Shared)
    requires CloudStage(kind, key, vs, sh) && Rises(kind, sh, sh') && sh'.cloud.Keys == sh.cloud.Keys
    ensures CloudStage(kind, key, vs, sh')
  {
    forall id | Owned(key, sh', id)
      ensures LifeHigh(kind, sh'.cloud[id]) && AllUnder(kind, vs, id, sh'.cloud[id].high)
    {
      assert Owned(key, sh, id);
      forall i | 0 <= i < |vs| ensures Under(kind, vs[i], id, sh'.cloud[id].high) {
        assert Under(kind, vs[i], id, sh.cloud[id].high);
      }
    }
  }

  lemma LaunchStaged(cfg: Config, key: string, l: Local, sh: Shared, lab: Label)
    requires Inv(cfg.kind, key, l, sh) && Staged(cfg.kind, key, l, sh) && lab.CallLaunch? && l.worker.Launching?
    requires lab.id != "" && lab.id !in sh.cloud && Calm(cfg.kind, sh, lab)
    ensures var (l', sh') := NextLaunch(cfg, l, sh, lab); Staged(cfg.kind, key, l', sh')
  {
    var (l', sh') := NextLaunch(cfg, l, sh, lab);
    var vs := l.versions;
    UnknownAbsent(cfg.kind, key, vs, sh, lab.id);
    assert CloudStage(cfg.kind, key, vs, sh') by {
      forall id | Owned(key, sh', id) ensures LifeHigh(cfg.kind, sh'.cloud[id])
          && AllUnder(cfg.kind, vs, id, sh'.cloud[id].high) {
        if id != lab.id || lab.launch.LaunchError? { assert Owned(key, sh, id); }
      }
    }
    match lab.launch case LaunchOk => case LaunchHidden => case LaunchError =>
  }

  lemma PollStaged(kind: Kind, key: string, l: Local, sh: Shared)
    requires Inv(kind, key, l, sh) && Staged(kind, key, l, sh) && l.worker.Polling?
        && l.worker.mem.status.id in sh.cloud
    ensures WorkerStage(kind, l.versions, Syncing(l.worker.mem, sh.cloud[l.worker.mem.status.id].life), sh)
  {
    StoredIdKnownAt(kind, key, l.versions, sh, l.worker.mem);
  }

  lemma MoveWorker(cfg: Config, key: string, l: Local, sh: Shared, lab: Label)
    requires Shape(l) && Enabled(cfg, key, l, sh, lab) && !ByUser(lab) && !lab.CallWrite? && !lab.CallLaunch?
    ensures var w' := Next(cfg, key, l, sh, lab).0.worker;
      || w' == l.worker || !(w'.Syncing? || w'.Recording?)
      || (lab.CallPoll? && l.worker.Polling? && w' == Syncing(l.worker.mem, sh.cloud[l.worker.mem.status.id].life))
  {
    hide Dispatch, Setback;
    if lab.CallGet? {
      DispatchStarts(cfg.kind, l.versions[l.view]);
    }
    match lab
    case CallGet(_) =>
    case CallTerminate(_) =>
    case Finish =>
    case _ =>
  }

  lemma WorkerRises(kind: Kind, vs: Versions, w: Worker, sh: Shared, sh': Shared)
    requires WorkerStage(kind, vs, w, sh) && Rises(kind, sh, sh') && sh'.cloud.Keys == sh.cloud.Keys
    ensures WorkerStage(kind, vs, w, sh')
  {
  }

  lemma StagedStep(cfg: Config, key: string, l: Local, sh: Shared, lab: Label)
    requires Inv(cfg.kind, key, l, sh) && Enabled(cfg, key, l, sh, lab) && Calm(cfg.kind, sh, lab)
    requires Staged(cfg.kind, key, l, sh)
    ensures var (l', sh') := Next(cfg, key, l, sh, lab); Staged(cfg.kind, key, l', sh')
  {
    if ByUser(lab) {
      UserStaged(cfg, key, l, sh, lab);
    } else if lab.CallLaunch? {
      LaunchStaged(cfg, key, l, sh, lab);
    } else {
      hide Next, Ordered, CloudStage, WorkerStage, Committed, AfterWrite;
      StepVersions(cfg, key, l, sh, lab);
      StepRises(cfg, key, l, sh, lab);
      if lab.CallWrite? {
        WriteStaged(cfg, key, l, sh, lab.outcome);
      } else {
        MoveWorker(cfg, key, l, sh, lab);
        if lab.CallPoll? { PollStaged(cfg.kind, key, l, sh); }
        var (l', sh') := Next(cfg, key, l, sh, lab);
        CloudStageRises(cfg.kind, key, l.versions, sh, sh');
        IdleStage(cfg.kind, l.versions, l'.worker, sh);
        WorkerRises(cfg.kind, l.versions, l'.worker, sh, sh');
      }
    }
  }

  lemma IdleStage(kind: Kind, vs: Versions, w: Worker, sh: Shared)
    ensures !(w.Syncing? || w.Recording?) ==> WorkerStage(kind, vs, w, sh)
  {
  }

  lemma WriteStaged(cfg: Config, key: string, l: Local, sh: Shared, out: WriteOutcome)
    requires Inv(cfg.kind, key, l, sh) && Staged(cfg.kind, key, l, sh) && Writing(l.worker)
    ensures var (l', sh') := NextWrite(cfg, l, sh, out); Staged(cfg.kind, key, l', sh')
  {
    hide Committed, CloudStage, Ordered;
    var (l', sh') := NextWrite(cfg, l, sh, out);
    if Commits(cfg.kind, l, out) {
      CommitStaged(cfg.kind, key, l, sh, out);
      CommitStands(cfg.kind, l.worker, l.worker.mem, sh.clock, out);
    } else {
      CloudStageRises(cfg.kind, key, l.versions, sh, sh');
    }
    IdleStage(cfg.kind, l'.versions, l'.worker, sh');
  }

  ghost predicate CalmRun(cfg: Config, ws: seq<World>, es: seq<Event>) {
    IsRun(cfg, ws, es) && forall i | 0 <= i < |es| :: Calm(cfg.kind, ws[i].shared, es[i].lab)
  }

  lemma ForeignStaged(kind: Kind, key: string, other: string, l: Local, sh: Shared, sh': Shared)
    requires Inv(kind, key, l, sh) && Staged(kind, key, l, sh) && Foreign(other, sh, sh') && key != other
    ensures Staged(kind, key, l, sh')
  {
    forall id | Owned(key, sh', id) ensures LifeHigh(kind, sh'.cloud[id])
        && AllUnder(kind, l.versions, id, sh'.cloud[id].high) {
      assert Owned(key, sh, id);
    }
    if l.worker.Syncing? || l.worker.Recording? {
      OwnId(kind, key, l, sh);
    }
  }

  lemma OwnId(kind: Kind, key: string, l: Local, sh: Shared)
    requires Inv(kind, key, l, sh)
    ensures l.worker.Syncing? ==> Owned(key, sh, l.worker.mem.status.id)
    ensures l.worker.Recording? ==> Owned(key, sh, l.worker.id)
  {
    if l.worker.Syncing? {
      StoredIdKnownAt(kind, key, l.versions, sh, l.worker.mem);
    } else if l.worker.Recording? {
      KnownIndex(kind, key, l.versions, sh, l.worker.mem);
    }
  }

  lemma {:induction false} RunStaged(cfg: Config, ws: seq<World>, es: seq<Event>, i: nat, key: string)
    requires CalmRun(cfg, ws, es) && i < |ws| && key in ws[0].locals
    ensures key in ws[i].locals && Staged(cfg.kind, key, ws[i].locals[key], ws[i].shared)
  {
    hide Next, Inv;
    KeyInv(cfg, ws, es, i, key);
    if i > 0 {
      RunStaged(cfg, ws, es, i - 1, key);
      KeyInv(cfg, ws, es, i - 1, key);
      KeyStep(cfg, ws, es, i - 1);
      RunInv(cfg, ws, es, i - 1);
      var w, e := ws[i - 1], es[i - 1];
      if e.key == key {
        StagedStep(cfg, key, w.locals[key], w.shared, e.lab);
      } else {
        WorldStepKeeps(cfg, w, e);
        ForeignStaged(cfg.kind, key, e.key, w.locals[key], w.shared, ws[i].shared);
      }
    }
  }

  // On a calm run, the phases of an object with its ID, other than Failed, go back exactly
  // in one way: a policy that was Active is Creating. Instances never go back.
  lemma PhasesAdvance(cfg: Config, ws: seq<World>, es: seq<Event>, i: nat, j: nat, key: string)
    requires CalmRun(cfg, ws, es) && i <= j < |ws| && key in ws[0].locals
    ensures var a, b := StoredAt(ws[i], key), StoredAt(ws[j], key);
      && (!Advances(a, b) <==>
            Comparable(a, b) && a.value.status.phase == Active && b.value.status.phase == Creating)
      && (!Advances(a, b) ==> cfg.kind == Policy)
  {
    hide Next, Inv;
    KeyInv(cfg, ws, es, i, key);
    VersionsExtend(cfg, ws, es, i, j, key);
    RunStaged(cfg, ws, es, j, key);
    var vi, vj := ws[i].locals[key].versions, ws[j].locals[key].versions;
    assert vj[|vi| - 1] == vi[|vi| - 1];
    assert |vi| < |vj| ==> FirmlyAdvances(cfg.kind, vj[|vi| - 1], vj[|vj| - 1]);
    var a, b := StoredAt(ws[i], key), StoredAt(ws[j], key);
    if Comparable(a, b) {
      ObjectEvolves(cfg, ws, es, i, j, key);
      NamedPhases(cfg, ws, es, i, key);
      NamedPhases(cfg, ws, es, j, key);
    }
  }

  // The one step that takes a phase back: a policy's sync that was polled while its list
  // was PROVISIONING, and had never been seen past that, when creation had already been
  // recorded as Active.
  lemma PhaseFallsExactly(cfg: Config, ws: seq<World>, es: seq<Event>, i: nat, key: string)
    requires CalmRun(cfg, ws, es) && i < |es| && key in ws[0].locals
    requires Comparable(StoredAt(ws[i], key), StoredAt(ws[i + 1], key))
    ensures key in ws[i].locals
    ensures var a, b := StoredAt(ws[i], key).value, StoredAt(ws[i + 1], key).value;
      && (Rank(b.status.phase) < Rank(a.status.phase) <==>
            && cfg.kind == Policy && a.status.phase == Active
            && OverwritesAt(cfg.kind, ws, es, i, key) && WorkerAt(ws[i], key) == Syncing(a, ProvisioningState))
      && (Rank(b.status.phase) < Rank(a.status.phase) ==>
            exists j: nat :: PolledAt(ws, es, j, key, a, ProvisioningState)
                             && StandsAt(ws, j, i, key, Syncing(a, ProvisioningState))
                             && ws[j].shared.cloud[a.status.id].high == 0)
  {
    hide Next, Inv, Overwrites, CalmRun, PolledAt, StandsAt;
    CalmIsRun(cfg, ws, es);
    var a, b := StoredAt(ws[i], key).value, StoredAt(ws[i + 1], key).value;
    PhasesAdvance(cfg, ws, es, i, i + 1, key);
    RunStatus(cfg, ws, es, i, key);
    KeyInv(cfg, ws, es, i, key);
    if OverwritesAt(cfg.kind, ws, es, i, key) {
      OverwritingId(cfg.kind, key, ws[i].locals[key], ws[i].shared, es[i].lab);
    }
    if Rank(b.status.phase) < Rank(a.status.phase) {
      PolledFirst(cfg, ws, es, i, key, a, ProvisioningState);
      var j: nat :| PolledAt(ws, es, j, key, a, ProvisioningState)
                    && StandsAt(ws, j, i, key, Syncing(a, ProvisioningState));
      PolledLow(cfg, ws, es, j, key, a);
    }
  }

  lemma CalmIsRun(cfg: Config, ws: seq<World>, es: seq<Event>)
    requires CalmRun(cfg, ws, es)
    ensures IsRun(cfg, ws, es)
  {
  }

  // An object that has its ID is only overwritten by a failure or a sync.
  lemma OverwritingId(kind: Kind, key: string, l: Local, sh: Shared, lab: Label)
    requires Inv(kind, key, l, sh) && Overwrites(kind, l, lab) && l.worker.mem.status.id != ""
    ensures var w := l.worker; var s := Sent(kind, w).status;
      && s.id == w.mem.status.id
      && ((w.MarkingFailed? && s.phase == Failed) || (w.Syncing? && s.phase == PhaseOf(kind, w.life)))
  {
  }

  // Nothing past PROVISIONING was ever shown when a poll reports it.
  lemma PolledLow(cfg: Config, ws: seq<World>, es: seq<Event>, j: nat, key: string, o: Obj)
    requires CalmRun(cfg, ws, es) && key in ws[0].locals && PolledAt(ws, es, j, key, o, ProvisioningState)
    ensures ws[j].shared.cloud[o.status.id].high == 0
  {
    hide Next;
    RunStaged(cfg, ws, es, j, key);
    KeyInv(cfg, ws, es, j, key);
    StoredIdKnownAt(cfg.kind, key, ws[j].locals[key].versions, ws[j].shared, o);
  }

  // ---- What a sync has stored is never gone back on ----

  // From here on nothing below stage n is stored for id.
  ghost predicate Floor(kind: Kind, id: string, n: nat, l: Local, sh: Shared) {
    && l.versions != [] && !Absent(l.versions, id) && id != "" && id in sh.cloud && n <= sh.cloud[id].high
    && (var st := Last(l.versions);
        st.Some? && st.value.status.id == id && st.value.status.phase != Failed ==> n <= Rank(st.value.status.phase))
    && (l.worker.Syncing? && l.worker.mem.status.id == id && Named(kind, l.worker.life) ==>
          n <= Stage(kind, l.worker.life))
  }

  lemma VersionOwned(kind: Kind, key: string, vs: Versions, sh: Shared, id: string)
    requires History(kind, key, vs, sh) && !Absent(vs, id) && id != ""
    ensures Owned(key, sh, id)
  {
    var i :| 0 <= i < |vs| && vs[i].Some? && vs[i].value.status.id == id;
    assert VersionOk(kind, key, sh, i, vs[i].value);
  }

  lemma FloorStored(cfg: Config, key: string, l: Local, sh: Shared, lab: Label, id: string, n: nat)
    requires Inv(cfg.kind, key, l, sh) && Enabled(cfg, key, l, sh, lab) && Floor(cfg.kind, id, n, l, sh)
    ensures var st := Last(Next(cfg, key, l, sh, lab).0.versions);
      st.Some? && st.value.status.id == id && st.value.status.phase != Failed ==> n <= Rank(st.value.status.phase)
  {
    hide Next, Inv;
    StepStatus(cfg, key, l, sh, lab);
    if Overwrites(cfg.kind, l, lab) && Sent(cfg.kind, l.worker).status.id == id {
      OverwrittenId(cfg.kind, key, l, sh, lab, id);
    }
  }

  // Only an object that had this ID before is written with it, as the ID is on a version.
  lemma OverwrittenId(kind: Kind, key: string, l: Local, sh: Shared, lab: Label, id: string)
    requires Inv(kind, key, l, sh) && Overwrites(kind, l, lab) && !Absent(l.versions, id) && id != ""
    requires Sent(kind, l.worker).status.id == id
    ensures var w := l.worker;
      && w.mem.status.id == id
      && (Sent(kind, w).status.phase != Failed ==> w.Syncing? && Sent(kind, w).status.phase == PhaseOf(kind, w.life))
  {
  }

  lemma FloorStep(cfg: Config, key: string, l: Local, sh: Shared, lab: Label, id: string, n: nat)
    requires Inv(cfg.kind, key, l, sh) && Enabled(cfg, key, l, sh, lab) && Calm(cfg.kind, sh, lab)
    requires CloudStage(cfg.kind, key, l.versions, sh) && Floor(cfg.kind, id, n, l, sh)
    ensures var (l', sh') := Next(cfg, key, l, sh, lab); Floor(cfg.kind, id, n, l', sh')
  {
    hide Next, Facts, Books, Ledger, Awake, WorkerOk, AllUnder;
    var (l', sh') := Next(cfg, key, l, sh, lab);
    FloorStored(cfg, key, l, sh, lab, id, n);
    StepRises(cfg, key, l, sh, lab);
    StepExtends(cfg, key, l, sh, lab);
    SeenStays(l.versions, l'.versions, id);
    OwnedByInv(cfg.kind, key, l, sh, id);
    if l'.worker.Syncing? && l'.worker != l.worker {
      EnterSyncing(cfg, key, l, sh, lab, l'.worker.mem, l'.worker.life);
    }
  }

  lemma OwnedByInv(kind: Kind, key: string, l: Local, sh: Shared, id: string)
    requires Inv(kind, key, l, sh) && !Absent(l.versions, id) && id != ""
    ensures Owned(key, sh, id)
  {
    VersionOwned(kind, key, l.versions, sh, id);
  }

  lemma {:induction false} FloorHolds(cfg: Config, ws: seq<World>, es: seq<Event>, i: nat, j: nat, key: string,
                                      id: string, n: nat)
    requires CalmRun(cfg, ws, es) && i <= j < |ws| && key in ws[0].locals && key in ws[i].locals
    requires Floor(cfg.kind, id, n, ws[i].locals[key], ws[i].shared)
    ensures key in ws[j].locals && Floor(cfg.kind, id, n, ws[j].locals[key], ws[j].shared)
    decreases j
  {
    hide Next, Inv, Floor, Staged;
    if i < j {
      FloorHolds(cfg, ws, es, i, j - 1, key, id, n);
      RunStep(cfg, ws, es, j - 1);
      KeyInv(cfg, ws, es, j - 1, key);
      RunStaged(cfg, ws, es, j - 1, key);
      var w, e := ws[j - 1], es[j - 1];
      if e.key == key {
        StagedCloud(cfg.kind, key, w.locals[key], w.shared);
        FloorStep(cfg, key, w.locals[key], w.shared, e.lab, id, n);
      } else {
        FloorForeign(cfg.kind, key, e.key, w.locals[key], w.shared, ws[j].shared, id, n);
      }
    }
  }

  lemma StagedCloud(kind: Kind, key: string, l: Local, sh: Shared)
    requires Staged(kind, key, l, sh)
    ensures CloudStage(kind, key, l.versions, sh)
  {
  }

  lemma StagedWorker(kind: Kind, key: string, l: Local, sh: Shared)
    requires Staged(kind, key, l, sh)
    ensures WorkerStage(kind, l.versions, l.worker, sh)
  {
  }

  // A step of a calm run, and what it leaves alone.
  lemma RunStep(cfg: Config, ws: seq<World>, es: seq<Event>, i: nat)
    requires CalmRun(cfg, ws, es) && i < |es|
    ensures CanStep(cfg, ws[i], es[i]) && ws[i + 1] == After(cfg, ws[i], es[i])
    ensures Calm(cfg.kind, ws[i].shared, es[i].lab) && Foreign(es[i].key, ws[i].shared, ws[i + 1].shared)
    ensures Inv(cfg.kind, es[i].key, ws[i].locals[es[i].key], ws[i].shared)
  {
    hide Next, Inv;
    KeyStep(cfg, ws, es, i);
    RunInv(cfg, ws, es, i);
    WorldStepKeeps(cfg, ws[i], es[i]);
  }

  lemma FloorForeign(kind: Kind, key: string, other: string, l: Local, sh: Shared, sh': Shared, id: string, n: nat)
    requires Inv(kind, key, l, sh) && Foreign(other, sh, sh') && key != other && Floor(kind, id, n, l, sh)
    ensures Floor(kind, id, n, l, sh')
  {
    hide Facts, Books, Ledger, Awake, WorkerOk, Absent;
    OwnedByInv(kind, key, l, sh, id);
  }

  lemma SyncingId(kind: Kind, key: string, l: Local, sh: Shared)
    requires Inv(kind, key, l, sh) && l.worker.Syncing?
    ensures l.worker.mem.status.id != ""
  {
  }

  lemma SyncFloor(cfg: Config, key: string, l: Local, sh: Shared, lab: Label)
    requires Inv(cfg.kind, key, l, sh) && Enabled(cfg, key, l, sh, lab)
    requires WorkerStage(cfg.kind, l.versions, l.worker, sh)
    requires Overwrites(cfg.kind, l, lab) && l.worker.Syncing? && Named(cfg.kind, l.worker.life)
    ensures var (l', sh') := Next(cfg, key, l, sh, lab);
            Floor(cfg.kind, l.worker.mem.status.id, Stage(cfg.kind, l.worker.life), l', sh')
  {
    hide Next, NextUser, Facts, Books, Ledger, Awake, Committed, AllUnder;
    var (l', sh') := Next(cfg, key, l, sh, lab);
    var o := l.worker.mem;
    StepStatus(cfg, key, l, sh, lab);
    StepVersions(cfg, key, l, sh, lab);
    StepExtends(cfg, key, l, sh, lab);
    CommitStands(cfg.kind, l.worker, o, sh.clock, lab.outcome);
    KnownSeen(l.versions, o);
    SeenStays(l.versions, l'.versions, o.status.id);
    OwnedByInv(cfg.kind, key, l, sh, o.status.id);
  }

  // Once a sync has stored a phase, no later phase of the object but Failed is behind it,
  // for policies as well: a list seen AVAILABLE is never called Creating again.
  lemma SyncedNeverBack(cfg: Config, ws: seq<World>, es: seq<Event>, m: nat, j: nat, key: string)
    requires CalmRun(cfg, ws, es) && m < |es| && m < j < |ws| && key in ws[0].locals
    requires OverwritesAt(cfg.kind, ws, es, m, key) && WorkerAt(ws[m], key).Syncing?
    requires Named(cfg.kind, WorkerAt(ws[m], key).life)
    requires StoredAt(ws[j], key).Some? && StoredAt(ws[j], key).value.status.phase != Failed
    requires StoredAt(ws[j], key).value.uid == WorkerAt(ws[m], key).mem.uid
    ensures Order(WorkerAt(ws[m], key).life) <= Rank(StoredAt(ws[j], key).value.status.phase)
  {
    hide Next, Inv, Floor, Overwrites, CalmRun, PhaseOf;
    CalmIsRun(cfg, ws, es);
    var w := WorkerAt(ws[m], key);
    KeyInv(cfg, ws, es, m, key);
    KeyInv(cfg, ws, es, m + 1, key);
    RunStatus(cfg, ws, es, m, key);
    SyncingId(cfg.kind, key, ws[m].locals[key], ws[m].shared);
    OverwritingId(cfg.kind, key, ws[m].locals[key], ws[m].shared, es[m].lab);
    ObjectEvolves(cfg, ws, es, m + 1, j, key);
    KeyStep(cfg, ws, es, m);
    RunStaged(cfg, ws, es, m, key);
    StagedWorker(cfg.kind, key, ws[m].locals[key], ws[m].shared);
    SyncFloor(cfg, key, ws[m].locals[key], ws[m].shared, es[m].lab);
    FloorHolds(cfg, ws, es, m + 1, j, key, w.mem.status.id, Stage(cfg.kind, w.life));
    FloorMeans(cfg.kind, w.mem.status.id, Stage(cfg.kind, w.life), ws[j].locals[key], ws[j].shared);
  }

  lemma FloorMeans(kind: Kind, id: string, n: nat, l: Local, sh: Shared)
    requires Floor(kind, id, n, l, sh)
    ensures var st := Last(l.versions);
      st.Some? && st.value.status.id == id && st.value.status.phase != Failed ==> n <= Rank(st.value.status.phase)
  {
  }
}
