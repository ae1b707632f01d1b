// What holds on every run: orphans, launches, deletion, IDs.
module Safety {
  import opened Resources
  import opened Machine
  import opened Invariants
  import opened Preservation
  import opened PreservationWrites
  import opened Worlds

  // What the server holds under key.
  ghost function StoredAt(w: World, key: string): Option<Obj> {
    if key in w.locals then Last(w.locals[key].versions) else None
  }

  ghost predicate IsStored(w: World, u: Uid) {
    StoredAt(w, u.key).Some? && StoredAt(w, u.key).value.uid == u
  }

  // Steps only the reconcile of a key takes.
  predicate ByWorker(lab: Label) {
    lab.Crash? || lab.Dequeue? || lab.Finish? || lab.CallGet? || lab.ClientReady? || lab.ClientFails?
    || lab.CallWrite? || lab.CallLaunch? || lab.CallPoll? || lab.CallTerminate?
  }

  lemma EnvironmentKeepsWorker(cfg: Config, key: string, l: Local, sh: Shared, lab: Label)
    requires Shape(l) && Enabled(cfg, key, l, sh, lab) && !ByWorker(lab)
    ensures Next(cfg, key, l, sh, lab).0.worker == l.worker
  {
    match lab
    case UserCreate(_, _) =>
    case UserEdit(_) =>
    case UserMeta(_) =>
    case UserDelete =>
    case _ =>
  }

  // Where a reconcile can be after its first read.
  lemma DispatchStarts(kind: Kind, got: Option<Obj>)
    ensures var w := Dispatch(kind, got);
            w.Returned? || w.AddingFinalizer? || w.NeedClient? || w.Destroying? || w.Unfinalizing?
  {
  }

  // ---- Orphans ----

  // The three ways an ID can be lost.
  ghost predicate Loses(kind: Kind, w: World, e: Event, id: string)
    requires e.key in w.locals && Shape(w.locals[e.key])
  {
    var l := w.locals[e.key];
    match e.lab
    case CallLaunch(out, x, _, _) => out.LaunchHidden? && x == id
    case CallWrite(out) => l.worker.Recording? && l.worker.id == id && !Commits(kind, l, out)
    case Crash(_) => l.worker.Recording? && l.worker.id == id
    case _ => false
  }

  lemma StepLoses(cfg: Config, w: World, e: Event, id: string)
    requires CanStep(cfg, w, e)
    ensures id in After(cfg, w, e).shared.lost <==> id in w.shared.lost || Loses(cfg.kind, w, e, id)
  {
    var l := w.locals[e.key];
    match e.lab
    case Crash(_) =>
    case CallLaunch(out, _, _, _) => match out { case LaunchOk => case LaunchHidden => case LaunchError => }
    case CallWrite(out) =>
    case _ =>
  }

  lemma {:induction false} LostExactly(cfg: Config, ws: seq<World>, es: seq<Event>, i: nat, id: string)
    requires IsRun(cfg, ws, es) && i < |ws|
    ensures id in ws[i].shared.lost <==>
            exists j | 0 <= j < i :: CanStep(cfg, ws[j], es[j]) && Loses(cfg.kind, ws[j], es[j], id)
  {
    if i > 0 {
      LostExactly(cfg, ws, es, i - 1, id);
      assert Steps(cfg, ws[i - 1], es[i - 1], ws[i]);
      StepLoses(cfg, ws[i - 1], es[i - 1], id);
    }
  }

  // A cloud resource the operator still answers for.
  ghost predicate Tracked(kind: Kind, w: World, id: string)
    requires id in w.shared.cloud
  {
    var r := w.shared.cloud[id];
    && r.owner.key in w.locals && w.locals[r.owner.key].versions != []
    && (|| r.accepted
        || id in Held(w.locals[r.owner.key].worker)
        || (IsStored(w, r.owner) && Recorded(kind, StoredAt(w, r.owner.key), id)))
  }

  // A resource is tracked exactly as long as its ID was not lost.
  lemma NoOrphan(cfg: Config, ws: seq<World>, es: seq<Event>, i: nat, id: string)
    requires IsRun(cfg, ws, es) && i < |ws| && id in ws[i].shared.cloud
    ensures Tracked(cfg.kind, ws[i], id) <==>
            !exists j | 0 <= j < i :: CanStep(cfg, ws[j], es[j]) && Loses(cfg.kind, ws[j], es[j], id)
  {
    hide Next, Inv, Loses, CanStep;
    RunInv(cfg, ws, es, i);
    LostExactly(cfg, ws, es, i, id);
    LostAlive(cfg, ws, es, i, id);
    var k := ws[i].shared.cloud[id].owner.key;
    assert Owned(k, ws[i].shared, id);
    KeptUnlessLost(cfg.kind, k, ws[i].locals[k], ws[i].shared, id);
    if id in ws[i].shared.lost {
      LostUntracked(cfg.kind, k, ws[i].locals[k], ws[i].shared, id);
    }
  }

  lemma KeptUnlessLost(kind: Kind, key: string, l: Local, sh: Shared, id: string)
    requires Inv(kind, key, l, sh) && Owned(key, sh, id)
    ensures l.versions != [] && "" !in sh.cloud
    ensures var st := Last(l.versions);
      || id in sh.lost || sh.cloud[id].accepted || id in Held(l.worker)
      || (Recorded(kind, st, id) && st.value.uid == sh.cloud[id].owner)
  {
    hide Books, Awake, WorkerOk;
    assert Accounted(kind, Last(l.versions), l.worker, sh, id);
    if Recorded(kind, Last(l.versions), id) {
      assert VersionOk(kind, key, sh, |l.versions| - 1, Last(l.versions).value);
    }
  }

  lemma LostUntracked(kind: Kind, key: string, l: Local, sh: Shared, id: string)
    requires Inv(kind, key, l, sh) && id in sh.lost
    ensures id !in Held(l.worker) && !Recorded(kind, Last(l.versions), id)
  {
    hide Books, Awake, Ledger;
    assert Absent(l.versions, id);
    assert l.versions[|l.versions| - 1] == Last(l.versions);
  }

  lemma TerminateSparesLost(kind: Kind, key: string, l: Local, sh: Shared, out: TerminateOutcome, id: string)
    requires Inv(kind, key, l, sh) && l.worker.Destroying? && l.worker.mem.status.id in sh.cloud && id in sh.lost
    ensures var sh' := NextTerminate(l, sh, out).1; id in sh'.cloud && sh'.cloud[id] == sh.cloud[id]
  {
    var o := l.worker.mem;
    var i :| 0 <= i < |l.versions| && l.versions[i] == Some(o);
    assert Absent(l.versions, id);
  }

  lemma StepSparesLost(cfg: Config, key: string, l: Local, sh: Shared, lab: Label, id: string)
    requires Inv(cfg.kind, key, l, sh) && Enabled(cfg, key, l, sh, lab)
    requires id in sh.lost ==> !sh.cloud[id].accepted
    ensures var sh' := Next(cfg, key, l, sh, lab).1;
            id in sh'.lost && id in sh'.cloud ==> !sh'.cloud[id].accepted
  {
    hide Books, Ledger, Awake;
    match lab
    case CallTerminate(out) => if id in sh.lost { TerminateSparesLost(cfg.kind, key, l, sh, out, id); }
    case CallLaunch(out, _, _, _) => match out { case LaunchOk => case LaunchHidden => case LaunchError => }
    case _ =>
  }

  lemma KeyInv(cfg: Config, ws: seq<World>, es: seq<Event>, i: nat, key: string)
    requires IsRun(cfg, ws, es) && i < |ws| && key in ws[0].locals
    ensures key in ws[i].locals && Inv(cfg.kind, key, ws[i].locals[key], ws[i].shared)
  {
    RunInv(cfg, ws, es, i);
  }

  // The i-th step of a run, seen from the key that moves.
  lemma KeyStep(cfg: Config, ws: seq<World>, es: seq<Event>, i: nat)
    requires IsRun(cfg, ws, es) && i < |es|
    ensures CanStep(cfg, ws[i], es[i]) && ws[i + 1] == After(cfg, ws[i], es[i])
    ensures es[i].key in ws[0].locals && Inv(cfg.kind, es[i].key, ws[i].locals[es[i].key], ws[i].shared)
  {
    assert Steps(cfg, ws[i], es[i], ws[i + 1]);
    RunInv(cfg, ws, es, i);
  }

  lemma {:induction false} LostAlive(cfg: Config, ws: seq<World>, es: seq<Event>, i: nat, id: string)
    requires IsRun(cfg, ws, es) && i < |ws|
    ensures id in ws[i].shared.lost && id in ws[i].shared.cloud ==> !ws[i].shared.cloud[id].accepted
  {
    if i > 0 {
      LostAlive(cfg, ws, es, i - 1, id);
      KeyStep(cfg, ws, es, i - 1);
      var e := es[i - 1];
      StepSparesLost(cfg, e.key, ws[i - 1].locals[e.key], ws[i - 1].shared, e.lab, id);
    }
  }

  // A lost resource is an orphan for good: never terminated, never on an object.
  lemma LostForever(cfg: Config, ws: seq<World>, es: seq<Event>, i: nat, j: nat, id: string, key: string)
    requires IsRun(cfg, ws, es) && i <= j < |ws| && id in ws[i].shared.lost && key in ws[0].locals
    ensures id in ws[j].shared.cloud && !ws[j].shared.cloud[id].accepted
    ensures key in ws[j].locals && Absent(ws[j].locals[key].versions, id)
  {
    OwnersStay(cfg, ws, es, i, j);
    KeyInv(cfg, ws, es, j, key);
    LostAlive(cfg, ws, es, j, id);
  }

  // ---- IDs ----

  // No two objects hold the same ID.
  lemma IdsInjective(cfg: Config, ws: seq<World>, es: seq<Event>, i: nat, j: nat, k1: string, k2: string)
    requires IsRun(cfg, ws, es) && i <= j < |ws|
    requires StoredAt(ws[i], k1).Some? && StoredAt(ws[j], k2).Some?
    requires StoredAt(ws[i], k1).value.status.id == StoredAt(ws[j], k2).value.status.id != ""
    ensures StoredAt(ws[i], k1).value.uid == StoredAt(ws[j], k2).value.uid && k1 == k2
  {
    RunInv(cfg, ws, es, i);
    RunInv(cfg, ws, es, j);
    OwnersStay(cfg, ws, es, i, j);
    var l1, l2 := ws[i].locals[k1], ws[j].locals[k2];
    assert VersionOk(cfg.kind, k1, ws[i].shared, |l1.versions| - 1, Last(l1.versions).value);
    assert VersionOk(cfg.kind, k2, ws[j].shared, |l2.versions| - 1, Last(l2.versions).value);
  }

  lemma {:induction false} OwnersStay(cfg: Config, ws: seq<World>, es: seq<Event>, i: nat, j: nat)
    requires IsRun(cfg, ws, es) && i <= j < |ws|
    ensures forall id | id in ws[i].shared.cloud ::
              id in ws[j].shared.cloud && ws[j].shared.cloud[id].owner == ws[i].shared.cloud[id].owner
    ensures ws[i].shared.lost <= ws[j].shared.lost
    decreases j
  {
    hide Next, Inv, WorldInv, Shape, Enabled, Initial;
    if i < j {
      OwnersStay(cfg, ws, es, i, j - 1);
      RunInv(cfg, ws, es, j - 1);
      assert Steps(cfg, ws[j - 1], es[j - 1], ws[j]);
      WorldStepKeeps(cfg, ws[j - 1], es[j - 1]);
    }
  }

  // ---- Versions over a run ----

  // Only users and the worker's writes store anything.
  lemma StepVersions(cfg: Config, key: string, l: Local, sh: Shared, lab: Label)
    requires Shape(l) && Enabled(cfg, key, l, sh, lab)
    ensures ByUser(lab) ==> Next(cfg, key, l, sh, lab) == NextUser(cfg, key, l, sh, lab)
    ensures lab.CallWrite? ==> Next(cfg, key, l, sh, lab) == NextWrite(cfg, l, sh, lab.outcome)
    ensures !ByUser(lab) && !lab.CallWrite? ==> Next(cfg, key, l, sh, lab).0.versions == l.versions
  {
    match lab
    case CallLaunch(out, _, _, _) => match out { case LaunchOk => case LaunchHidden => case LaunchError => }
    case _ =>
  }

  lemma StepExtends(cfg: Config, key: string, l: Local, sh: Shared, lab: Label)
    requires Shape(l) && Enabled(cfg, key, l, sh, lab)
    ensures var l' := Next(cfg, key, l, sh, lab).0;
      l'.versions == l.versions || (|l'.versions| == |l.versions| + 1 && l'.versions[..|l.versions|] == l.versions)
  {
    hide Next;
    StepVersions(cfg, key, l, sh, lab);
    if ByUser(lab) {
      match lab case UserCreate(_, _) => case UserEdit(_) => case UserMeta(_) => case UserDelete =>
    }
  }

  lemma {:induction false} VersionsExtend(cfg: Config, ws: seq<World>, es: seq<Event>, i: nat, j: nat, key: string)
    requires IsRun(cfg, ws, es) && i <= j < |ws| && key in ws[0].locals
    ensures key in ws[i].locals && key in ws[j].locals
    ensures ws[i].locals[key].versions <= ws[j].locals[key].versions
    ensures 0 < |ws[i].locals[key].versions|
    decreases j
  {
    KeyInv(cfg, ws, es, i, key);
    if i < j {
      VersionsExtend(cfg, ws, es, i, j - 1, key);
      KeyStep(cfg, ws, es, j - 1);
      if es[j - 1].key == key {
        StepExtends(cfg, key, ws[j - 1].locals[key], ws[j - 1].shared, es[j - 1].lab);
      }
    }
  }

  // Over the life of one object: the ID is written once, generation and
  // ObservedGeneration never fall, a deletion is never undone, a failure reason is
  // never cleared, and Failed for a generation is final for that generation.
  lemma ObjectEvolves(cfg: Config, ws: seq<World>, es: seq<Event>, i: nat, j: nat, key: string)
    requires IsRun(cfg, ws, es) && i <= j < |ws|
    requires StoredAt(ws[i], key).Some? && StoredAt(ws[j], key).Some?
    requires StoredAt(ws[i], key).value.uid == StoredAt(ws[j], key).value.uid
    ensures Evolves(StoredAt(ws[i], key).value, StoredAt(ws[j], key).value)
    ensures var b := StoredAt(ws[j], key).value;
      && b.status.observed <= b.generation
      && (NeedsId(b.status.phase) ==> b.status.id != "")
  {
    RunInv(cfg, ws, es, i);
    KeyInv(cfg, ws, es, j, key);
    VersionsExtend(cfg, ws, es, i, j, key);
    var vi, vj := ws[i].locals[key].versions, ws[j].locals[key].versions;
    assert vj[|vi| - 1] == vi[|vi| - 1];
    assert VersionOk(cfg.kind, key, ws[j].shared, |vj| - 1, Last(vj).value);
    assert |vi| < |vj| ==> Follows(vj[|vi| - 1], vj[|vj| - 1]);
  }

  // ---- Wakeups ----

  // An object with work left is never forgotten: its key is queued, a timer or a retry
  // is pending, a reconcile is running, or the cache has yet to deliver a newer version.
  lemma NoLostWakeup(cfg: Config, ws: seq<World>, es: seq<Event>, i: nat, key: string)
    requires IsRun(cfg, ws, es) && i < |ws| && key in ws[0].locals
    requires StoredAt(ws[i], key).Some? && !Quiescent(cfg.kind, StoredAt(ws[i], key))
    ensures key in ws[i].locals
    ensures var l := ws[i].locals[key];
      !l.worker.Idle? || l.queued || l.timer || l.retry || Behind(l)
  {
    KeyInv(cfg, ws, es, i, key);
  }
}
