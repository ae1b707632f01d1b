// The finalizer goes only after the cloud resource was told to go.
module Deletion {
  import opened Resources
  import opened Machine
  import opened Invariants
  import opened PreservationWrites
  import opened Worlds
  import opened Safety
  import opened Launches

  ghost predicate KeepsFinalizer(kind: Kind, a: Obj, st: Option<Obj>) {
    st.Some? && st.value.uid == a.uid && Finalizer(kind) in st.value.finalizers
  }

  lemma UserKeepsFinalizer(cfg: Config, key: string, l: Local, sh: Shared, lab: Label)
    requires Shape(l) && Enabled(cfg, key, l, sh, lab) && ByUser(lab)
    requires Last(l.versions).Some? && Finalizer(cfg.kind) in Last(l.versions).value.finalizers
    ensures KeepsFinalizer(cfg.kind, Last(l.versions).value, Last(NextUser(cfg, key, l, sh, lab).0.versions))
  {
    match lab case UserCreate(_, _) => case UserEdit(_) => case UserMeta(_) => case UserDelete =>
  }

  lemma CommitKeepsFinalizer(kind: Kind, w: Worker, rv: nat)
    requires Writing(w) && !w.Unfinalizing? && Finalizer(kind) in w.mem.finalizers
    ensures KeepsFinalizer(kind, w.mem, Committed(kind, w, w.mem, rv))
  {
    hide Committed;
    CommitShape(kind, w, rv);
  }

  lemma WriteKeepsFinalizer(cfg: Config, key: string, l: Local, sh: Shared, out: WriteOutcome)
    requires Inv(cfg.kind, key, l, sh) && Writing(l.worker)
    requires Last(l.versions).Some? && Finalizer(cfg.kind) in Last(l.versions).value.finalizers
    ensures var a := Last(l.versions).value;
      || KeepsFinalizer(cfg.kind, a, Last(NextWrite(cfg, l, sh, out).0.versions))
      || (l.worker == Unfinalizing(a) && a.deleting)
  {
    hide Committed;
    if Commits(cfg.kind, l, out) {
      CommitFromStored(cfg.kind, key, l, sh, out);
      if !l.worker.Unfinalizing? {
        CommitKeepsFinalizer(cfg.kind, l.worker, sh.clock);
      }
    }
  }

  lemma StepKeepsFinalizer(cfg: Config, key: string, l: Local, sh: Shared, lab: Label)
    requires Inv(cfg.kind, key, l, sh) && Enabled(cfg, key, l, sh, lab)
    requires Last(l.versions).Some? && Finalizer(cfg.kind) in Last(l.versions).value.finalizers
    ensures var a := Last(l.versions).value; var l' := Next(cfg, key, l, sh, lab).0;
      || KeepsFinalizer(cfg.kind, a, Last(l'.versions))
      || (lab.CallWrite? && l.worker == Unfinalizing(a) && a.deleting)
  {
    hide Next;
    StepVersions(cfg, key, l, sh, lab);
    if ByUser(lab) { UserKeepsFinalizer(cfg, key, l, sh, lab); }
    else if lab.CallWrite? { WriteKeepsFinalizer(cfg, key, l, sh, lab.outcome); }
  }

  lemma EnterUnfinalizing(cfg: Config, key: string, l: Local, sh: Shared, lab: Label, a: Obj)
    requires Shape(l) && Enabled(cfg, key, l, sh, lab) && a.status.id != ""
    requires Next(cfg, key, l, sh, lab).0.worker == Unfinalizing(a) && l.worker != Unfinalizing(a)
    ensures lab == CallTerminate(TermOk) && l.worker == Destroying(a)
  {
    match lab
    case CallGet(_) =>
    case CallWrite(_) =>
    case CallLaunch(out, _, _, _) => match out { case LaunchOk => case LaunchHidden => case LaunchError => }
    case CallTerminate(_) =>
    case UserCreate(_, _) =>
    case UserEdit(_) =>
    case UserMeta(_) =>
    case UserDelete =>
    case _ =>
  }

  // Step j: the cloud accepts the termination of exactly the ID a carries.
  ghost predicate TerminatedAt(ws: seq<World>, es: seq<Event>, j: nat, key: string, a: Obj) {
    j < |es| < |ws| && es[j] == Event(key, CallTerminate(TermOk))
    && key in ws[j].locals && ws[j].locals[key].worker == Destroying(a)
  }

  lemma {:induction false} TerminatedFirst(cfg: Config, ws: seq<World>, es: seq<Event>, i: nat, key: string, a: Obj)
    requires IsRun(cfg, ws, es) && i < |ws| && key in ws[0].locals && a.status.id != ""
    requires key in ws[i].locals && WorkerAt(ws[i], key) == Unfinalizing(a)
    ensures exists j: nat :: TerminatedAt(ws, es, j, key, a) && StandsAt(ws, j, i, key, Unfinalizing(a))
  {
    hide Next, Inv;
    if i > 0 {
      KeyStep(cfg, ws, es, i - 1);
      KeyInv(cfg, ws, es, i - 1, key);
      if WorkerAt(ws[i - 1], key) == Unfinalizing(a) {
        TerminatedFirst(cfg, ws, es, i - 1, key, a);
        var j: nat :| TerminatedAt(ws, es, j, key, a) && StandsAt(ws, j, i - 1, key, Unfinalizing(a));
        assert StandsAt(ws, j, i, key, Unfinalizing(a));
      } else {
        EnterUnfinalizing(cfg, key, ws[i - 1].locals[key], ws[i - 1].shared, es[i - 1].lab, a);
        assert TerminatedAt(ws, es, i - 1, key, a) && StandsAt(ws, i - 1, i, key, Unfinalizing(a));
      }
    }
  }

  lemma UnfinalizingAccepted(kind: Kind, key: string, l: Local, sh: Shared, a: Obj)
    requires Inv(kind, key, l, sh) && l.worker == Unfinalizing(a) && a.status.id != ""
    ensures a.status.id in sh.cloud && sh.cloud[a.status.id].accepted
  {
  }

  // Whenever the server's object loses our finalizer, or disappears while carrying it,
  // the user had deleted it, and, if it had an ID, this same reconcile had that very ID
  // accepted for termination.
  lemma FinalizerRemoval(cfg: Config, ws: seq<World>, es: seq<Event>, i: nat, key: string)
    requires IsRun(cfg, ws, es) && i < |es| && key in ws[0].locals
    requires StoredAt(ws[i], key).Some? && Finalizer(cfg.kind) in StoredAt(ws[i], key).value.finalizers
    ensures var a := StoredAt(ws[i], key).value;
      KeepsFinalizer(cfg.kind, a, StoredAt(ws[i + 1], key)) ||
        (&& es[i].key == key && es[i].lab.CallWrite? && a.deleting
         && key in ws[i].locals && WorkerAt(ws[i], key) == Unfinalizing(a)
         && (a.status.id != "" ==>
               && a.status.id in ws[i].shared.cloud && ws[i].shared.cloud[a.status.id].accepted
               && exists j: nat :: TerminatedAt(ws, es, j, key, a) && StandsAt(ws, j, i, key, Unfinalizing(a))))
  {
    hide Next, Inv, TerminatedAt, StandsAt;
    var a := StoredAt(ws[i], key).value;
    KeyInv(cfg, ws, es, i, key);
    KeyInv(cfg, ws, es, i + 1, key);
    KeyStep(cfg, ws, es, i);
    if es[i].key == key {
      StepKeepsFinalizer(cfg, key, ws[i].locals[key], ws[i].shared, es[i].lab);
    }
    if !KeepsFinalizer(cfg.kind, a, StoredAt(ws[i + 1], key)) && a.status.id != "" {
      UnfinalizingAccepted(cfg.kind, key, ws[i].locals[key], ws[i].shared, a);
      TerminatedFirst(cfg, ws, es, i, key, a);
    }
  }

  // A terminate call names only an ID that was recorded on an object the user has
  // already deleted, even when the reconcile works from a stale copy.
  lemma TerminateOnlyDeleted(cfg: Config, ws: seq<World>, es: seq<Event>, i: nat)
    requires IsRun(cfg, ws, es) && i < |es| && es[i].lab.CallTerminate?
    ensures es[i].key in ws[i].locals
    ensures var l := ws[i].locals[es[i].key];
      && l.worker.Destroying?
      && var o := l.worker.mem;
         && o.deleting && Some(o) in l.versions
         && o.status.id in ws[i].shared.cloud && ws[i].shared.cloud[o.status.id].owner == o.uid
         && (IsStored(ws[i], o.uid) ==> StoredAt(ws[i], o.uid.key).value.deleting)
  {
    KeyStep(cfg, ws, es, i);
    var key := es[i].key;
    var l, sh := ws[i].locals[key], ws[i].shared;
    var n :| 0 <= n < |l.versions| && l.versions[n] == Some(l.worker.mem);
    assert VersionOk(cfg.kind, key, sh, n, l.worker.mem);
    assert n < |l.versions| - 1 ==> Follows(l.versions[n], l.versions[|l.versions| - 1]);
  }

  // A live object that is not deleted never has its cloud resource terminated by the
  // operator.
  lemma NotTerminatedWhileWanted(cfg: Config, ws: seq<World>, es: seq<Event>, i: nat, key: string)
    requires IsRun(cfg, ws, es) && i < |ws| && key in ws[0].locals
    requires StoredAt(ws[i], key).Some? && !StoredAt(ws[i], key).value.deleting
    requires StoredAt(ws[i], key).value.status.id != ""
    ensures var id := StoredAt(ws[i], key).value.status.id;
            id in ws[i].shared.cloud && !ws[i].shared.cloud[id].accepted
  {
    KeyInv(cfg, ws, es, i, key);
    var l := ws[i].locals[key];
    assert VersionOk(cfg.kind, key, ws[i].shared, |l.versions| - 1, Last(l.versions).value);
  }

  // ---- Other finalizers ----

  // b is a with our finalizer added, removed, or as it was, and all others as they were.
  ghost predicate OthersStay(kind: Kind, a: Obj, b: Obj) {
    forall f | f != Finalizer(kind) :: f in b.finalizers <==> f in a.finalizers
  }

  // What a step of anyone but a user makes of the stored object's finalizers.
  lemma StepSparesOthers(cfg: Config, key: string, l: Local, sh: Shared, lab: Label)
    requires Inv(cfg.kind, key, l, sh) && Enabled(cfg, key, l, sh, lab) && !ByUser(lab)
    requires Last(l.versions).Some?
    ensures var a, st := Last(l.versions).value, Last(Next(cfg, key, l, sh, lab).0.versions);
      if st.Some? then OthersStay(cfg.kind, a, st.value)
      else a.deleting && a.finalizers == {Finalizer(cfg.kind)}
  {
    hide Next, Facts, Books, Ledger, Awake, Finalizer;
    StepVersions(cfg, key, l, sh, lab);
    if lab.CallWrite? && Commits(cfg.kind, l, lab.outcome) {
      CommitFromStored(cfg.kind, key, l, sh, lab.outcome);
      CommitSparesOthers(cfg.kind, l.versions, l.worker, sh);
    }
  }

  lemma CommitSparesOthers(kind: Kind, vs: Versions, w: Worker, sh: Shared)
    requires Writing(w) && WorkerOk(kind, vs, w, sh)
    ensures var v := Committed(kind, w, w.mem, sh.clock);
      if v.Some? then OthersStay(kind, w.mem, v.value)
      else w.mem.deleting && w.mem.finalizers == {Finalizer(kind)}
  {
    hide Finalizer, Known;
    match w
    case AddingFinalizer(_) =>
    case Fencing(_) =>
    case Recording(_, _) =>
    case MarkingFailed(_, _, _) =>
    case Syncing(_, _) =>
    case Unfinalizing(_) =>
  }

  // The two kinds never touch each other's finalizer.
  lemma FinalizersApart()
    ensures Finalizer(Instance) == "compute.nvcne-demo.io/finalizer"
    ensures Finalizer(Policy) == "compute.nvcne-demo.io/security-policy-finalizer"
    ensures Finalizer(Instance) != Finalizer(Policy)
  {
    assert |Finalizer(Instance)| != |Finalizer(Policy)|;
  }

  // On every run, whatever the reconciles write, the finalizers of others stay as users left
  // them, and an object vanishes by a reconcile only when ours was the last.
  lemma OthersKeepTheirs(cfg: Config, ws: seq<World>, es: seq<Event>, i: nat, key: string)
    requires IsRun(cfg, ws, es) && i < |es| && key in ws[0].locals
    requires StoredAt(ws[i], key).Some? && !(es[i].key == key && ByUser(es[i].lab))
    ensures var a, st := StoredAt(ws[i], key).value, StoredAt(ws[i + 1], key);
      if st.Some? then OthersStay(cfg.kind, a, st.value)
      else a.deleting && a.finalizers == {Finalizer(cfg.kind)}
  {
    hide Next, Inv, Finalizer;
    KeyInv(cfg, ws, es, i, key);
    KeyInv(cfg, ws, es, i + 1, key);
    KeyStep(cfg, ws, es, i);
    if es[i].key == key {
      StepSparesOthers(cfg, key, ws[i].locals[key], ws[i].shared, es[i].lab);
    }
  }
}
