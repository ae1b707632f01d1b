// Every step of the machine keeps the invariant.
module Preservation {
  import opened Resources
  import opened Machine
  import opened Invariants

  // ---- Steps that store nothing and call nothing creating or destroying ----

  ghost predicate SameStanding(w: Worker, w': Worker) {
    Held(w') == Held(w) && Unsettled(w') == Unsettled(w)
    && w.Launching? == w'.Launching? && (w.Launching? ==> w == w')
  }

  lemma SameBooks(key: string, vs: Versions, w: Worker, w': Worker, accounts: Accounts)
    requires vs != [] && Books(key, vs, w, accounts) && SameStanding(w, w')
    ensures Books(key, vs, w', accounts)
  {
    forall u | u in accounts ensures WithinBudget(accounts[u], Armed(Last(vs), w', u)) {
      assert Armed(Last(vs), w', u) == Armed(Last(vs), w, u);
    }
  }

  lemma SameLedger(kind: Kind, key: string, st: Option<Obj>, w: Worker, w': Worker, sh: Shared)
    requires Ledger(kind, key, st, w, sh) && Held(w) <= Held(w')
    ensures Ledger(kind, key, st, w', sh)
  {
    forall id | Owned(key, sh, id) ensures Accounted(kind, st, w', sh, id) {
      assert Accounted(kind, st, w, sh, id);
    }
  }

  lemma QueueKeeps(cfg: Config, key: string, l: Local, sh: Shared, lab: Label)
    requires Inv(cfg.kind, key, l, sh) && Enabled(cfg, key, l, sh, lab)
    requires lab.CacheMove? || lab.TimerFires? || lab.RetryFires? || lab.Dequeue? || lab.Finish?
    ensures var (l', sh') := Next(cfg, key, l, sh, lab); Inv(cfg.kind, key, l', sh')
  {
    hide Facts, Books, Ledger;
    var l' := Next(cfg, key, l, sh, lab).0;
    assert SameStanding(l.worker, l'.worker);
    SameBooks(key, l.versions, l.worker, l'.worker, l.accounts);
    SameLedger(cfg.kind, key, Last(l.versions), l.worker, l'.worker, sh);
    match lab case CacheMove(_) => case TimerFires => case RetryFires => case Dequeue => case Finish =>
  }

  lemma DispatchOk(kind: Kind, vs: Versions, got: Option<Obj>, sh: Shared)
    requires got.Some? ==> Known(vs, got.value)
    ensures WorkerOk(kind, vs, Dispatch(kind, got), sh)
    ensures Dispatch(kind, got) == Returned(Stop) ==> Quiescent(kind, got)
    ensures Live(Dispatch(kind, got)) ==> got.Some? && !got.value.deleting
    ensures SameStanding(Fetching, Dispatch(kind, got))
    ensures !Dispatch(kind, got).Idle?
  {
    hide Finalizer, Known, Launchable, Fenced, FailedForGeneration;
  }

  lemma FetchKeeps(cfg: Config, key: string, l: Local, sh: Shared, lab: Label)
    requires Inv(cfg.kind, key, l, sh) && Enabled(cfg, key, l, sh, lab)
    requires lab.CallGet? && l.worker.Fetching?
    ensures var (l', sh') := Next(cfg, key, l, sh, lab); Inv(cfg.kind, key, l', sh')
  {
    hide Facts, Books, Ledger;
    var l' := NextGet(cfg, l, lab.ok);
    DispatchOk(cfg.kind, l.versions, l.versions[l.view], sh);
    assert SameStanding(l.worker, l'.worker);
    SameBooks(key, l.versions, l.worker, l'.worker, l.accounts);
    SameLedger(cfg.kind, key, Last(l.versions), l.worker, l'.worker, sh);
  }

  lemma RefetchKeeps(cfg: Config, key: string, l: Local, sh: Shared, lab: Label)
    requires Inv(cfg.kind, key, l, sh) && Enabled(cfg, key, l, sh, lab)
    requires lab.CallGet? && l.worker.Refetching? && lab.ok && l.versions[l.view].Some?
    ensures var (l', sh') := Next(cfg, key, l, sh, lab); Inv(cfg.kind, key, l', sh')
  {
    hide Facts, Books, Ledger;
    var l' := NextGet(cfg, l, lab.ok);
    assert SameStanding(l.worker, l'.worker);
    SameBooks(key, l.versions, l.worker, l'.worker, l.accounts);
    SameLedger(cfg.kind, key, Last(l.versions), l.worker, l'.worker, sh);
  }

  lemma LocalMoveWorker(cfg: Config, key: string, l: Local, sh: Shared, lab: Label)
    requires Shape(l) && WorkerOk(cfg.kind, l.versions, l.worker, sh) && Awake(cfg.kind, l)
        && Enabled(cfg, key, l, sh, lab)
    requires lab.ClientReady? || lab.ClientFails? || lab.CallPoll?
    ensures var (l', sh') := Next(cfg, key, l, sh, lab);
      && WorkerOk(cfg.kind, l.versions, l'.worker, sh) && Awake(cfg.kind, l') && SameStanding(l.worker, l'.worker)
      && l' == l.(worker := l'.worker) && sh' == sh
  {
    match lab case ClientReady => case ClientFails(_) => case CallPoll(_) =>
  }

  lemma LocalMoveKeeps(cfg: Config, key: string, l: Local, sh: Shared, lab: Label)
    requires Inv(cfg.kind, key, l, sh) && Enabled(cfg, key, l, sh, lab)
    requires lab.ClientReady? || lab.ClientFails? || lab.CallPoll?
    ensures var (l', sh') := Next(cfg, key, l, sh, lab); Inv(cfg.kind, key, l', sh')
  {
    hide Facts, Books, Ledger, Next, WorkerOk, Awake;
    LocalMoveWorker(cfg, key, l, sh, lab);
    var l' := Next(cfg, key, l, sh, lab).0;
    SameBooks(key, l.versions, l.worker, l'.worker, l.accounts);
    SameLedger(cfg.kind, key, Last(l.versions), l.worker, l'.worker, sh);
  }

  // ---- Steps that give up a reconcile ----

  lemma SetbackBooks(key: string, l: Local, w: Worker)
    requires l.versions != [] && Books(key, l.versions, l.worker, l.accounts)
    requires w.Idle? || w.Returned?
    ensures Books(key, l.versions, w, Setback(l))
  {
    var st, accounts := Last(l.versions), Setback(l);
    forall u | u in accounts ensures WithinBudget(accounts[u], Armed(st, w, u)) {
      assert u in l.accounts;
      assert WithinBudget(l.accounts[u], Armed(st, l.worker, u));
    }
    forall u ensures AccountOf(accounts, u).attempted == AccountOf(l.accounts, u).attempted {}
  }

  lemma GiveUpLedger(kind: Kind, key: string, st: Option<Obj>, w: Worker, w': Worker, sh: Shared)
    requires Ledger(kind, key, st, w, sh)
    ensures Ledger(kind, key, st, w', sh.(lost := sh.lost + Held(w)))
  {
    var sh' := sh.(lost := sh.lost + Held(w));
    forall id | Owned(key, sh', id) ensures Accounted(kind, st, w', sh', id) {
      assert Owned(key, sh, id);
    }
  }

  lemma GiveUpFacts(kind: Kind, key: string, vs: Versions, w: Worker, sh: Shared)
    requires Facts(kind, key, vs, sh) && WorkerOk(kind, vs, w, sh)
    ensures Facts(kind, key, vs, sh.(lost := sh.lost + Held(w)))
  {
    assert History(kind, key, vs, sh.(lost := sh.lost + Held(w)));
  }

  lemma RefetchFailsKeeps(cfg: Config, key: string, l: Local, sh: Shared, lab: Label)
    requires Inv(cfg.kind, key, l, sh) && Enabled(cfg, key, l, sh, lab)
    requires lab.CallGet? && l.worker.Refetching? && !(lab.ok && l.versions[l.view].Some?)
    ensures var (l', sh') := Next(cfg, key, l, sh, lab); Inv(cfg.kind, key, l', sh')
  {
    hide Facts, Books, Ledger;
    SetbackBooks(key, l, Returned(Retry));
    SameLedger(cfg.kind, key, Last(l.versions), l.worker, Returned(Retry), sh);
  }

  lemma CrashKeeps(cfg: Config, key: string, l: Local, sh: Shared, lab: Label)
    requires Inv(cfg.kind, key, l, sh) && Enabled(cfg, key, l, sh, lab) && lab.Crash?
    ensures var (l', sh') := Next(cfg, key, l, sh, lab); Inv(cfg.kind, key, l', sh')
  {
    hide Facts, Books, Ledger;
    SetbackBooks(key, l, Idle);
    GiveUpLedger(cfg.kind, key, Last(l.versions), l.worker, Idle, sh);
    GiveUpFacts(cfg.kind, key, l.versions, l.worker, sh);
  }

  lemma WriteFailsKeeps(cfg: Config, key: string, l: Local, sh: Shared, lab: Label)
    requires Inv(cfg.kind, key, l, sh) && Enabled(cfg, key, l, sh, lab) && lab.CallWrite?
    requires lab.outcome.Rejected? || Conflict(Last(l.versions), Sent(cfg.kind, l.worker))
    ensures var (l', sh') := Next(cfg, key, l, sh, lab); Inv(cfg.kind, key, l', sh')
  {
    hide Facts, Books, Ledger;
    SetbackBooks(key, l, Returned(Retry));
    GiveUpLedger(cfg.kind, key, Last(l.versions), l.worker, Returned(Retry), sh);
    GiveUpFacts(cfg.kind, key, l.versions, l.worker, sh);
  }

  // ---- Steps that change the cloud ----

  // Resources stay, keep their owner, and stay terminated.
  ghost predicate Grows(sh: Shared, sh': Shared) {
    && sh.clock <= sh'.clock
    && forall id | id in sh.cloud ::
         id in sh'.cloud && sh'.cloud[id].owner == sh.cloud[id].owner
         && (sh.cloud[id].accepted ==> sh'.cloud[id].accepted)
  }

  lemma HistoryGrows(kind: Kind, key: string, vs: Versions, sh: Shared, sh': Shared)
    requires History(kind, key, vs, sh) && Grows(sh, sh')
    ensures History(kind, key, vs, sh')
  {
    forall i | 0 <= i < |vs| && vs[i].Some? ensures VersionOk(kind, key, sh', i, vs[i].value) {
      assert VersionOk(kind, key, sh, i, vs[i].value);
    }
  }

  lemma CloudMoveKeeps(cfg: Config, key: string, l: Local, sh: Shared, lab: Label)
    requires Inv(cfg.kind, key, l, sh) && Enabled(cfg, key, l, sh, lab) && lab.CloudMove?
    ensures var (l', sh') := Next(cfg, key, l, sh, lab); Inv(cfg.kind, key, l', sh')
  {
    var sh' := NextCloudMove(cfg.kind, sh, lab.id, lab.life);
    HistoryGrows(cfg.kind, key, l.versions, sh, sh');
    forall id | Owned(key, sh', id) ensures Accounted(cfg.kind, Last(l.versions), l.worker, sh', id) {
      assert Owned(key, sh, id);
    }
  }

  // An ID the cloud does not know is on no version.
  lemma UnknownAbsent(kind: Kind, key: string, vs: Versions, sh: Shared, id: string)
    requires History(kind, key, vs, sh) && id !in sh.cloud && id != ""
    ensures Absent(vs, id)
  {
    forall i | 0 <= i < |vs| && vs[i].Some? ensures vs[i].value.status.id != id {
      assert VersionOk(kind, key, sh, i, vs[i].value);
    }
  }

  lemma LaunchFacts(cfg: Config, key: string, l: Local, sh: Shared, lab: Label)
    requires Facts(cfg.kind, key, l.versions, sh) && lab.CallLaunch? && l.worker.Launching?
    requires lab.id != "" && lab.id !in sh.cloud
    ensures Facts(cfg.kind, key, l.versions, NextLaunch(cfg, l, sh, lab).1)
  {
    var sh' := NextLaunch(cfg, l, sh, lab).1;
    HistoryGrows(cfg.kind, key, l.versions, sh, sh');
    UnknownAbsent(cfg.kind, key, l.versions, sh, lab.id);
  }

  lemma LaunchLedger(cfg: Config, key: string, l: Local, sh: Shared, lab: Label)
    requires l.versions != [] && lab.CallLaunch? && l.worker.Launching? && lab.id !in sh.cloud
    requires Ledger(cfg.kind, key, Last(l.versions), l.worker, sh)
    ensures var (l', sh') := NextLaunch(cfg, l, sh, lab);
            Ledger(cfg.kind, key, Last(l'.versions), l'.worker, sh')
  {
    var (l', sh') := NextLaunch(cfg, l, sh, lab);
    forall id | Owned(key, sh', id) ensures Accounted(cfg.kind, Last(l.versions), l'.worker, sh', id) {
      if id != lab.id || lab.launch.LaunchError? {
        assert Owned(key, sh, id);
      }
    }
  }

  lemma LaunchWorker(cfg: Config, key: string, l: Local, sh: Shared, lab: Label)
    requires lab.CallLaunch? && l.worker.Launching? && Fenced(cfg.kind, l.versions, l.worker.mem)
    requires Absent(l.versions, lab.id) && lab.id != "" && lab.id !in sh.lost && lab.reason != ""
    ensures var (l', sh') := NextLaunch(cfg, l, sh, lab);
            WorkerOk(cfg.kind, l'.versions, l'.worker, sh') && Live(l'.worker)
  {
    match lab.launch
    case LaunchOk =>
    case LaunchHidden =>
    case LaunchError =>
  }

  lemma LaunchStands(cfg: Config, l: Local, sh: Shared, lab: Label)
    requires lab.CallLaunch? && l.worker.Launching?
    ensures var (l', sh') := NextLaunch(cfg, l, sh, lab);
      && Unsettled(l'.worker) == Some(l.worker.mem) && !l'.worker.Launching?
      && l'.versions == l.versions && l'.view == l.view && l'.queued == l.queued
  {
    match lab.launch case LaunchOk => case LaunchHidden => case LaunchError =>
  }

  lemma LaunchKeeps(cfg: Config, key: string, l: Local, sh: Shared, lab: Label)
    requires Inv(cfg.kind, key, l, sh) && lab.CallLaunch? && l.worker.Launching?
    requires lab.id != "" && lab.id !in sh.cloud && lab.reason != ""
    ensures var (l', sh') := NextLaunch(cfg, l, sh, lab); Inv(cfg.kind, key, l', sh')
  {
    LaunchStands(cfg, l, sh, lab);
    LaunchFacts(cfg, key, l, sh, lab);
    LaunchLedger(cfg, key, l, sh, lab);
    UnknownAbsent(cfg.kind, key, l.versions, sh, lab.id);
    LaunchWorker(cfg, key, l, sh, lab);
    KnownIndex(cfg.kind, key, l.versions, sh, l.worker.mem);
    LaunchBooks(cfg, key, l, sh, lab);
  }

  lemma KnownIndex(kind: Kind, key: string, vs: Versions, sh: Shared, o: Obj)
    requires History(kind, key, vs, sh) && Known(vs, o)
    ensures o.uid.key == key && o.uid.n < |vs|
  {
    var i :| 0 <= i < |vs| && vs[i] == Some(o);
    assert VersionOk(kind, key, sh, i, o);
  }

  lemma LaunchBooks(cfg: Config, key: string, l: Local, sh: Shared, lab: Label)
    requires Shape(l) && l.worker.Launching? && lab.CallLaunch? && Books(key, l.versions, l.worker, l.accounts)
    requires Known(l.versions, l.worker.mem)
    requires l.worker.mem.uid.key == key && l.worker.mem.uid.n < |l.versions|
    ensures var l' := NextLaunch(cfg, l, sh, lab).0; Books(key, l'.versions, l'.worker, l'.accounts)
  {
    LaunchStands(cfg, l, sh, lab);
    var l' := NextLaunch(cfg, l, sh, lab).0;
    var st, o := Last(l.versions), l.worker.mem;
    var a := AccountOf(l.accounts, o.uid);
    assert l'.accounts == l.accounts[o.uid := a.(launches := a.launches + 1,
        attempted := a.attempted + {o.generation})];
    forall u | u in l'.accounts ensures WithinBudget(l'.accounts[u], Armed(st, l'.worker, u)) {
      if u in l.accounts {
        assert WithinBudget(l.accounts[u], Armed(st, l.worker, u));
      }
    }
  }

  lemma TerminateKeeps(cfg: Config, key: string, l: Local, sh: Shared, lab: Label)
    requires Inv(cfg.kind, key, l, sh) && lab.CallTerminate?
    requires l.worker.Destroying? && l.worker.mem.status.id in sh.cloud
    ensures var (l', sh') := NextTerminate(l, sh, lab.term); Inv(cfg.kind, key, l', sh')
  {
    var (l', sh') := NextTerminate(l, sh, lab.term);
    var vs, o := l.versions, l.worker.mem;
    HistoryGrows(cfg.kind, key, vs, sh, sh');
    SameBooks(key, vs, l.worker, l'.worker, l.accounts);
    forall id | Owned(key, sh', id) ensures Accounted(cfg.kind, Last(vs), l'.worker, sh', id) {
      assert Owned(key, sh, id);
    }
    DeletedStays(cfg.kind, key, vs, sh, o);
    match lab.term case TermOk => case TermHidden => case TermError =>
  }

  // An ID pins its object, and deletion is never undone.
  lemma DeletedStays(kind: Kind, key: string, vs: Versions, sh: Shared, o: Obj)
    requires History(kind, key, vs, sh) && Known(vs, o) && o.status.id != "" && o.deleting
    ensures Last(vs).Some? && Last(vs).value.status.id == o.status.id ==> Last(vs).value.deleting
  {
    var i :| 0 <= i < |vs| && vs[i] == Some(o);
    assert VersionOk(kind, key, sh, i, o);
    if Last(vs).Some? && Last(vs).value.status.id == o.status.id {
      assert VersionOk(kind, key, sh, |vs| - 1, Last(vs).value);
      assert i < |vs| - 1 ==> Follows(vs[i], vs[|vs| - 1]);
    }
  }

  // ---- IDs that are on some version ----

  lemma KnownSeen(vs: Versions, o: Obj)
    requires Known(vs, o)
    ensures !Absent(vs, o.status.id)
  {
    var i :| 0 <= i < |vs| && vs[i] == Some(o);
  }

  lemma SeenStays(vs: Versions, vs': Versions, id: string)
    requires vs <= vs' && !Absent(vs, id)
    ensures !Absent(vs', id)
  {
    var i :| 0 <= i < |vs| && vs[i].Some? && vs[i].value.status.id == id;
    assert vs'[i] == vs[i];
  }
}
