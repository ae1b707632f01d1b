// What a reconcile returns, and what the runtime makes of it.
module Returns {
  import opened Resources
  import opened Machine
  import opened Invariants
  import opened PreservationWrites
  import opened Worlds
  import opened Safety
  import opened Launches
  import opened Convergence

  // This step is a call of the reconcile that fails, as the reconcile sees it.
  ghost predicate CallFails(kind: Kind, l: Local, lab: Label)
    requires Shape(l)
  {
    match lab
    case CallGet(ok) => !ok || (l.worker.Refetching? && l.versions[l.view].None?)
    case ClientFails(_) => l.worker.Destroying?
    case CallWrite(out) => !(out.Reply? && Commits(kind, l, out))
    case CallPoll(ok) => !ok
    case CallTerminate(out) => !out.TermOk?
    case _ => false
  }

  // This step is a write that is committed and acknowledged.
  ghost predicate Acknowledged(kind: Kind, l: Local, lab: Label) {
    lab == CallWrite(Reply) && Commits(kind, l, Reply)
  }

  // Nothing is to be done for what was read: no object, one that is deleting and done with,
  // or one that is Failed.
  ghost predicate NothingToDo(kind: Kind, got: Option<Obj>) {
    got.Some? ==>
      if got.value.deleting then Finalizer(kind) !in got.value.finalizers
      else Finalizer(kind) in got.value.finalizers
           && got.value.status.phase == Failed && got.value.status.observed == got.value.generation
  }

  // How long a reconcile waits after an acknowledged write, in seconds; None: it does not.
  ghost function Waits(kind: Kind, w: Worker): Option<nat> {
    match w
    case Recording(_, _) => Some(if kind == Instance then 30 else 300)
    case Syncing(_, life) =>
      Some(match kind
           case Instance => if life == RunningState then 300 else 30
           case Policy => if life == ProvisioningState then 30 else 300)
    case _ => None
  }

  // The results a step can end a reconcile with.
  ghost predicate EndsAs(kind: Kind, l: Local, lab: Label, w': Worker)
    requires Shape(l)
  {
    && (w' == Returned(Retry) <==> CallFails(kind, l, lab))
    && (forall d: nat :: w' == Returned(RequeueAfter(d)) <==>
          Acknowledged(kind, l, lab) && Waits(kind, l.worker) == Some(d))
    && (w' == Returned(Stop) <==>
          || (lab == CallGet(true) && l.worker.Fetching? && NothingToDo(kind, l.versions[l.view]))
          || (Acknowledged(kind, l, lab)
              && (l.worker.AddingFinalizer? || l.worker.MarkingFailed? || l.worker.Unfinalizing?)))
  }

  lemma ReadEnds(cfg: Config, l: Local, ok: bool)
    requires Shape(l) && (l.worker.Fetching? || l.worker.Refetching?)
    ensures EndsAs(cfg.kind, l, CallGet(ok), NextGet(cfg, l, ok).worker)
  {
    hide Commits, Finalizer;
  }

  lemma AcknowledgedEnds(kind: Kind, l: Local, copy: Option<Obj>)
    requires Shape(l) && Writing(l.worker) && Commits(kind, l, Reply) && (l.worker.Fencing? ==> copy.Some?)
    ensures EndsAs(kind, l, CallWrite(Reply), AfterWrite(kind, l.worker, copy))
  {
    hide Commits, NothingToDo;
    match l.worker
    case AddingFinalizer(_) =>
    case Fencing(_) =>
    case Recording(_, _) =>
    case MarkingFailed(_, _, _) =>
    case Syncing(_, life) => PhaseDelay(kind, life);
    case Unfinalizing(_) =>
  }

  lemma PhaseDelay(kind: Kind, life: Life)
    ensures SyncDelay(kind, life) == if kind == Instance then (if life == RunningState then 300 else 30)
                                     else (if life == ProvisioningState then 30 else 300)
  {
  }

  lemma FailedEnds(kind: Kind, l: Local, out: WriteOutcome)
    requires Shape(l) && Writing(l.worker) && !(out.Reply? && Commits(kind, l, out))
    ensures EndsAs(kind, l, CallWrite(out), Returned(Retry))
  {
    hide Commits, NothingToDo, Waits;
  }

  lemma WriteEnds(cfg: Config, key: string, l: Local, sh: Shared, out: WriteOutcome)
    requires Inv(cfg.kind, key, l, sh) && Writing(l.worker)
    ensures EndsAs(cfg.kind, l, CallWrite(out), NextWrite(cfg, l, sh, out).0.worker)
  {
    hide EndsAs, Committed, AfterWrite, Facts, Books, Ledger, Awake, WorkerOk;
    if out.Reply? && Commits(cfg.kind, l, out) {
      CommitFromStored(cfg.kind, key, l, sh, out);
      CommitShape(cfg.kind, l.worker, sh.clock);
      AcknowledgedEnds(cfg.kind, l, Committed(cfg.kind, l.worker, l.worker.mem, sh.clock));
    } else {
      FailedEnds(cfg.kind, l, out);
    }
  }

  // A step that is neither a read nor a write.
  lemma OtherEnds(cfg: Config, key: string, l: Local, sh: Shared, lab: Label)
    requires Shape(l) && Enabled(cfg, key, l, sh, lab) && !l.worker.Returned?
    requires ByWorker(lab) && !lab.CallGet? && !lab.CallWrite?
    ensures EndsAs(cfg.kind, l, lab, Next(cfg, key, l, sh, lab).0.worker)
  {
    hide Setback, Commits, NothingToDo, Waits, NextUser, NextWrite, NextGet, Dispatch;
    match lab
    case CallLaunch(out, _, _, _) => match out { case LaunchOk => case LaunchHidden => case LaunchError => }
    case ClientReady =>
    case ClientFails(_) =>
    case CallPoll(_) =>
    case CallTerminate(_) =>
    case Crash(_) =>
    case Dequeue =>
    case Finish =>
  }

  lemma StillGoing(kind: Kind, l: Local, lab: Label)
    requires Shape(l) && !l.worker.Returned? && !ByWorker(lab)
    ensures EndsAs(kind, l, lab, l.worker)
  {
  }

  lemma StepEnds(cfg: Config, key: string, l: Local, sh: Shared, lab: Label)
    requires Inv(cfg.kind, key, l, sh) && Enabled(cfg, key, l, sh, lab) && !l.worker.Returned?
    ensures EndsAs(cfg.kind, l, lab, Next(cfg, key, l, sh, lab).0.worker)
  {
    hide Facts, Books, Ledger, Awake, WorkerOk, EndsAs, NextWrite, NextGet, NextUser;
    if !ByWorker(lab) {
      EnvironmentKeepsWorker(cfg, key, l, sh, lab);
      StillGoing(cfg.kind, l, lab);
    } else if lab.CallGet? {
      ReadEnds(cfg, l, lab.ok);
    } else if lab.CallWrite? {
      WriteEnds(cfg, key, l, sh, lab.outcome);
    } else {
      OtherEnds(cfg, key, l, sh, lab);
    }
  }

  // On every run, a reconcile that has not returned yet goes on to return an error exactly if
  // the step is a call of its own that fails; a requeue after 30 or 300 seconds exactly if it
  // is the acknowledged write that asks for it; and neither exactly if nothing was to be done
  // for what it read, or it is an acknowledged write to the finalizers or of a failure.
  lemma ReturnsExactly(cfg: Config, ws: seq<World>, es: seq<Event>, m: nat)
    requires IsRun(cfg, ws, es) && m < |es|
    ensures es[m].key in ws[m].locals && es[m].key in ws[m + 1].locals && Shape(ws[m].locals[es[m].key])
    ensures !WorkerAt(ws[m], es[m].key).Returned? ==>
              EndsAs(cfg.kind, ws[m].locals[es[m].key], es[m].lab, WorkerAt(ws[m + 1], es[m].key))
  {
    hide Next, Inv, EndsAs, WorkerOk;
    KeyStep(cfg, ws, es, m);
    InvShape(cfg.kind, es[m].key, ws[m].locals[es[m].key], ws[m].shared);
    if !WorkerAt(ws[m], es[m].key).Returned? {
      StepEnds(cfg, es[m].key, ws[m].locals[es[m].key], ws[m].shared, es[m].lab);
    }
  }

  // A woken key comes to rest, with nothing left pending by this reconcile and nothing called
  // or stored, exactly if nothing is to be done for what the server holds.
  lemma RestsExactly(cfg: Config, key: string, l: Local, sh: Shared)
    requires Attentive(l)
    ensures Drive(cfg, key, l, sh, [Dequeue] + ([CallGet(true)] + [Finish])) == Some((l.(queued := false), sh))
            <==> NothingToDo(cfg.kind, Last(l.versions))
  {
    hide Drive, Finalizer;
    Opening(cfg, key, l, sh, [Finish]);
    var w := Dispatch(cfg.kind, Last(l.versions));
    if w.Returned? {
      DriveLast(cfg, key, Woken(l, w), sh, Finish);
    } else {
      NotFinished(cfg, key, Woken(l, w), sh);
    }
  }

  lemma NotFinished(cfg: Config, key: string, l: Local, sh: Shared)
    requires !l.worker.Returned?
    ensures Drive(cfg, key, l, sh, [Finish]).None?
  {
  }
}
