// The recorded resource is the one the recorded generation asked for.
module Requests {
  import opened Resources
  import opened Machine
  import opened Invariants
  import opened Preservation
  import opened PreservationWrites
  import opened Worlds
  import opened Safety
  import opened Launches

  // r was made for a generation that v has observed, and for v's spec if that is v's own.
  ghost predicate MadeFor(cfg: Config, r: Resource, v: Obj) {
    && 1 <= r.generation <= v.status.observed
    && (r.generation == v.generation ==> r.request == cfg.request(v.spec))
  }

  ghost predicate HeldFor(cfg: Config, w: Worker, sh: Shared) {
    w.Recording? && w.id in sh.cloud ==>
      sh.cloud[w.id].generation == w.mem.generation && sh.cloud[w.id].request == cfg.request(w.mem.spec)
  }

  ghost predicate VersionMade(cfg: Config, sh: Shared, st: Option<Obj>) {
    st.Some? && st.value.status.id in sh.cloud ==> MadeFor(cfg, sh.cloud[st.value.status.id], st.value)
  }

  ghost predicate Provenance(cfg: Config, l: Local, sh: Shared) {
    HeldFor(cfg, l.worker, sh) && VersionMade(cfg, sh, Last(l.versions))
  }

  // What a resource was created with never changes.
  ghost predicate KeepsRequests(sh: Shared, sh': Shared) {
    forall id | id in sh.cloud ::
      id in sh'.cloud && sh'.cloud[id].generation == sh.cloud[id].generation
      && sh'.cloud[id].request == sh.cloud[id].request
  }

  lemma StepKeepsRequests(cfg: Config, key: string, l: Local, sh: Shared, lab: Label)
    requires Shape(l) && Enabled(cfg, key, l, sh, lab)
    ensures KeepsRequests(sh, Next(cfg, key, l, sh, lab).1)
    ensures !lab.CallLaunch? ==> Next(cfg, key, l, sh, lab).1.cloud.Keys == sh.cloud.Keys
    ensures "" !in sh.cloud ==> "" !in Next(cfg, key, l, sh, lab).1.cloud
  {
    hide Dispatch, Sent, Committed, Setback, AfterWrite;
    match lab
    case CallLaunch(out, _, _, _) => match out { case LaunchOk => case LaunchHidden => case LaunchError => }
    case _ =>
  }

  lemma EnterRecording(cfg: Config, key: string, l: Local, sh: Shared, lab: Label)
    requires Shape(l) && Enabled(cfg, key, l, sh, lab)
    ensures var (l', sh') := Next(cfg, key, l, sh, lab);
      l'.worker.Recording? ==> l'.worker == l.worker || (lab.CallLaunch? && HeldFor(cfg, l'.worker, sh'))
  {
    hide Dispatch, Sent, Committed, Setback;
    if lab.CallGet? {
      DispatchStarts(cfg.kind, l.versions[l.view]);
    }
    match lab
    case CallLaunch(out, _, _, _) => match out { case LaunchOk => case LaunchHidden => case LaunchError => }
    case UserCreate(_, _) =>
    case UserEdit(_) =>
    case UserMeta(_) =>
    case UserDelete =>
    case CallGet(_) =>
    case CallWrite(_) =>
    case _ =>
  }

  lemma UserMade(cfg: Config, key: string, l: Local, sh: Shared, lab: Label)
    requires Inv(cfg.kind, key, l, sh) && Enabled(cfg, key, l, sh, lab) && ByUser(lab)
    requires VersionMade(cfg, sh, Last(l.versions))
    ensures var (l', sh') := NextUser(cfg, key, l, sh, lab); VersionMade(cfg, sh', Last(l'.versions))
  {
    hide Books, Ledger, Awake, WorkerOk, Follows;
    if Last(l.versions).Some? {
      assert VersionOk(cfg.kind, key, sh, |l.versions| - 1, Last(l.versions).value);
    }
    match lab case UserCreate(_, _) => case UserEdit(_) => case UserMeta(_) => case UserDelete =>
  }

  lemma CommitMade(cfg: Config, key: string, l: Local, sh: Shared, out: WriteOutcome)
    requires Inv(cfg.kind, key, l, sh) && Commits(cfg.kind, l, out) && Provenance(cfg, l, sh)
    ensures var (l', sh') := NextWrite(cfg, l, sh, out); VersionMade(cfg, sh', Last(l'.versions))
  {
    hide Committed, UpdateStatus, Update, Sent;
    StoredGood(cfg.kind, key, l, sh, out);
    var v := Committed(cfg.kind, l.worker, l.worker.mem, sh.clock);
    assert VersionMade(cfg, sh, v) by {
      CommittedMade(cfg, key, l, sh, v);
    }
  }

  lemma CommittedMade(cfg: Config, key: string, l: Local, sh: Shared, v: Option<Obj>)
    requires Writing(l.worker) && v == Committed(cfg.kind, l.worker, l.worker.mem, sh.clock)
    requires Last(l.versions) == Some(l.worker.mem) && Provenance(cfg, l, sh) && "" !in sh.cloud
    requires l.worker.mem.status.observed <= l.worker.mem.generation && 1 <= l.worker.mem.generation
    ensures VersionMade(cfg, sh, v)
  {
    match l.worker
    case AddingFinalizer(_) =>
    case Fencing(_) =>
    case Recording(_, _) =>
    case MarkingFailed(_, _, _) =>
    case Syncing(_, _) =>
    case Unfinalizing(_) =>
  }

  lemma ProvenanceStep(cfg: Config, key: string, l: Local, sh: Shared, lab: Label)
    requires Inv(cfg.kind, key, l, sh) && Enabled(cfg, key, l, sh, lab) && Provenance(cfg, l, sh)
    ensures var (l', sh') := Next(cfg, key, l, sh, lab); Provenance(cfg, l', sh')
  {
    hide Next, NextUser, Facts, Books, Ledger, Awake, WorkerOk;
    StepVersions(cfg, key, l, sh, lab);
    StepKeepsRequests(cfg, key, l, sh, lab);
    EnterRecording(cfg, key, l, sh, lab);
    StoredIdKnown(cfg.kind, key, l, sh);
    if ByUser(lab) {
      UserMade(cfg, key, l, sh, lab);
    } else if lab.CallWrite? && Commits(cfg.kind, l, lab.outcome) {
      CommitMade(cfg, key, l, sh, lab.outcome);
    }
  }

  lemma StoredIdKnown(kind: Kind, key: string, l: Local, sh: Shared)
    requires Inv(kind, key, l, sh)
    ensures Last(l.versions).Some? && Last(l.versions).value.status.id != "" ==>
              Last(l.versions).value.status.id in sh.cloud
    ensures "" !in sh.cloud
    ensures l.worker.Recording? ==> l.worker.id in sh.cloud
  {
    if Last(l.versions).Some? {
      assert VersionOk(kind, key, sh, |l.versions| - 1, Last(l.versions).value);
    }
  }

  lemma {:induction false} RunProvenance(cfg: Config, ws: seq<World>, es: seq<Event>, i: nat, key: string)
    requires IsRun(cfg, ws, es) && i < |ws| && key in ws[0].locals
    ensures key in ws[i].locals && Provenance(cfg, ws[i].locals[key], ws[i].shared)
  {
    hide Next;
    KeyInv(cfg, ws, es, i, key);
    if i > 0 {
      RunProvenance(cfg, ws, es, i - 1, key);
      KeyInv(cfg, ws, es, i - 1, key);
      KeyStep(cfg, ws, es, i - 1);
      var w, e := ws[i - 1], es[i - 1];
      if e.key == key {
        ProvenanceStep(cfg, key, w.locals[key], w.shared, e.lab);
      } else {
        StepKeepsRequests(cfg, e.key, w.locals[e.key], w.shared, e.lab);
        StoredIdKnown(cfg.kind, key, w.locals[key], w.shared);
      }
    }
  }

  // ---- Recording ----

  ghost predicate GainsId(a: Option<Obj>, b: Option<Obj>) {
    a.Some? && b.Some? && a.value.uid == b.value.uid && a.value.status.id == "" && b.value.status.id != ""
  }

  lemma RecordingWrite(cfg: Config, key: string, l: Local, sh: Shared, out: WriteOutcome)
    requires Inv(cfg.kind, key, l, sh) && Writing(l.worker)
    requires GainsId(Last(l.versions), Last(NextWrite(cfg, l, sh, out).0.versions))
    ensures Commits(cfg.kind, l, out) && l.worker.Recording? && Last(l.versions) == Some(l.worker.mem)
    ensures var b := Last(NextWrite(cfg, l, sh, out).0.versions).value;
      && b.status.id == l.worker.id && b.status.observed == b.generation == l.worker.mem.generation
      && b.spec == l.worker.mem.spec
  {
    if Commits(cfg.kind, l, out) {
      CommitFromStored(cfg.kind, key, l, sh, out);
    }
  }

  lemma OnlyRecordingGains(cfg: Config, key: string, l: Local, sh: Shared, lab: Label)
    requires Shape(l) && Enabled(cfg, key, l, sh, lab)
    requires GainsId(Last(l.versions), Last(Next(cfg, key, l, sh, lab).0.versions))
    ensures lab.CallWrite?
  {
    hide Next;
    StepVersions(cfg, key, l, sh, lab);
    if ByUser(lab) {
      match lab case UserCreate(_, _) => case UserEdit(_) => case UserMeta(_) => case UserDelete =>
    }
  }

  // When an ID first appears on the server's object, ObservedGeneration is the current
  // generation, it is the generation the resource was created for, and the creation
  // request was built from exactly the spec now stored: no edit came in between.
  lemma RecordedAsRequested(cfg: Config, ws: seq<World>, es: seq<Event>, i: nat, key: string)
    requires IsRun(cfg, ws, es) && i < |es| && key in ws[0].locals
    requires GainsId(StoredAt(ws[i], key), StoredAt(ws[i + 1], key))
    ensures var a, b := StoredAt(ws[i], key).value, StoredAt(ws[i + 1], key).value;
      && b.status.id in ws[i + 1].shared.cloud
      && var r := ws[i + 1].shared.cloud[b.status.id];
         && r.owner == b.uid && r.generation == b.generation == b.status.observed == a.generation
         && r.request == cfg.request(b.spec) && b.spec == a.spec
  {
    hide Next;
    KeyInv(cfg, ws, es, i, key);
    KeyInv(cfg, ws, es, i + 1, key);
    KeyStep(cfg, ws, es, i);
    RunProvenance(cfg, ws, es, i, key);
    var w, e := ws[i], es[i];
    var l := w.locals[key];
    assert e.key == key;
    OnlyRecordingGains(cfg, key, l, w.shared, e.lab);
    StepVersions(cfg, key, l, w.shared, e.lab);
    RecordingWrite(cfg, key, l, w.shared, e.lab.outcome);
    StepKeepsRequests(cfg, key, l, w.shared, e.lab);
    StoredIdKnown(cfg.kind, key, l, w.shared);
    var l' := ws[i + 1].locals[key];
    assert VersionOk(cfg.kind, key, ws[i + 1].shared, |l'.versions| - 1, Last(l'.versions).value);
  }

  // Ever after, ObservedGeneration has caught up with the generation that was launched.
  lemma ObservedCoversRequest(cfg: Config, ws: seq<World>, es: seq<Event>, i: nat, key: string)
    requires IsRun(cfg, ws, es) && i < |ws| && key in ws[0].locals
    requires StoredAt(ws[i], key).Some? && StoredAt(ws[i], key).value.status.id != ""
    ensures var v := StoredAt(ws[i], key).value;
      v.status.id in ws[i].shared.cloud && MadeFor(cfg, ws[i].shared.cloud[v.status.id], v)
  {
    KeyInv(cfg, ws, es, i, key);
    RunProvenance(cfg, ws, es, i, key);
    StoredIdKnown(cfg.kind, key, ws[i].locals[key], ws[i].shared);
  }
}
