// When creation calls are issued, and how often.
module Launches {
  import opened Resources
  import opened Machine
  import opened Invariants
  import opened PreservationWrites
  import opened Worlds
  import opened Safety

  ghost function WorkerAt(w: World, key: string): Worker
    requires key in w.locals
  {
    w.locals[key].worker
  }

  // ---- A launch is justified at the instant its fence commits ----

  // This step is a fence write that commits: the server's own object is launchable,
  // the write was made from it, and the worker goes on with what is then stored.
  ghost predicate FenceCommits(kind: Kind, w: World, e: Event, w': World, key: string, o: Obj) {
    && key in w.locals && key in w'.locals && e == Event(key, CallWrite(Reply))
    && StoredAt(w, key).Some? && Launchable(kind, StoredAt(w, key).value)
    && WorkerAt(w, key) == Fencing(StoredAt(w, key).value)
    && StoredAt(w', key) == Some(o) && WorkerAt(w', key) == Launching(o)
    && o.spec == StoredAt(w, key).value.spec && o.generation == StoredAt(w, key).value.generation
  }

  // From after step j up to state i the reconcile of key stands at w.
  ghost predicate StandsAt(ws: seq<World>, j: nat, i: nat, key: string, w: Worker) {
    j < i < |ws| && forall m | j < m <= i :: key in ws[m].locals && ws[m].locals[key].worker == w
  }

  ghost predicate FencedAt(kind: Kind, ws: seq<World>, es: seq<Event>, j: nat, key: string, o: Obj) {
    j < |es| && |ws| == |es| + 1 && FenceCommits(kind, ws[j], es[j], ws[j + 1], key, o)
  }

  lemma OnlyFenceLaunches(cfg: Config, key: string, l: Local, sh: Shared, lab: Label, o: Obj)
    requires Shape(l) && Enabled(cfg, key, l, sh, lab)
    requires Next(cfg, key, l, sh, lab).0.worker == Launching(o) && l.worker != Launching(o)
    ensures lab == CallWrite(Reply) && Commits(cfg.kind, l, Reply) && l.worker.Fencing?
  {
    hide Committed, Sent, Dispatch, Setback;
    match lab
    case CallWrite(_) =>
    case CallGet(_) => DispatchStarts(cfg.kind, l.versions[l.view]);
    case CallLaunch(out, _, _, _) => match out { case LaunchOk => case LaunchHidden => case LaunchError => }
    case UserCreate(_, _) =>
    case UserEdit(_) =>
    case UserMeta(_) =>
    case UserDelete =>
    case _ =>
  }

  lemma EnterLaunching(cfg: Config, key: string, l: Local, sh: Shared, lab: Label, o: Obj)
    requires Inv(cfg.kind, key, l, sh) && Enabled(cfg, key, l, sh, lab)
    requires Next(cfg, key, l, sh, lab).0.worker == Launching(o) && l.worker != Launching(o)
    ensures lab == CallWrite(Reply) && Commits(cfg.kind, l, Reply)
    ensures l.worker.Fencing? && Last(l.versions) == Some(l.worker.mem)
    ensures Last(Next(cfg, key, l, sh, lab).0.versions) == Some(o)
    ensures o.spec == l.worker.mem.spec && o.generation == l.worker.mem.generation
  {
    hide Facts, Books, Ledger, Awake, WorkerOk;
    OnlyFenceLaunches(cfg, key, l, sh, lab, o);
    CommitFromStored(cfg.kind, key, l, sh, Reply);
  }

  lemma FencedStep(cfg: Config, ws: seq<World>, es: seq<Event>, i: nat, key: string, o: Obj)
    requires IsRun(cfg, ws, es) && i < |es| && key in ws[0].locals
    requires key in ws[i].locals && key in ws[i + 1].locals
    requires WorkerAt(ws[i], key) != Launching(o) && WorkerAt(ws[i + 1], key) == Launching(o)
    ensures FencedAt(cfg.kind, ws, es, i, key, o)
  {
    hide Next;
    KeyStep(cfg, ws, es, i);
    EnterLaunching(cfg, key, ws[i].locals[key], ws[i].shared, es[i].lab, o);
  }

  // However stale the copy a reconcile started from, it launches for o only if there was
  // a step, within this reconcile, at which the server itself held a launchable object.
  lemma {:induction false} LaunchJustified(cfg: Config, ws: seq<World>, es: seq<Event>, i: nat, key: string, o: Obj)
    requires IsRun(cfg, ws, es) && i < |ws| && key in ws[0].locals
    requires key in ws[i].locals && WorkerAt(ws[i], key) == Launching(o)
    ensures exists j: nat :: FencedAt(cfg.kind, ws, es, j, key, o) && StandsAt(ws, j, i, key, Launching(o))
  {
    hide Next, Inv, FencedAt;
    if i > 0 {
      KeyInv(cfg, ws, es, i - 1, key);
      if WorkerAt(ws[i - 1], key) == Launching(o) {
        LaunchJustified(cfg, ws, es, i - 1, key, o);
        var j: nat :| FencedAt(cfg.kind, ws, es, j, key, o) && StandsAt(ws, j, i - 1, key, Launching(o));
        assert StandsAt(ws, j, i, key, Launching(o));
      } else {
        FencedStep(cfg, ws, es, i - 1, key, o);
        assert FencedAt(cfg.kind, ws, es, i - 1, key, o) && StandsAt(ws, i - 1, i, key, Launching(o));
      }
    }
  }

  // ---- Counting what a run did for one object ----

  ghost predicate LaunchesFor(l: Local, lab: Label, u: Uid) {
    lab.CallLaunch? && l.worker.Launching? && l.worker.mem.uid == u
  }

  ghost predicate EditsOf(l: Local, lab: Label, u: Uid) {
    lab.UserEdit? && Last(l.versions).Some? && Last(l.versions).value.uid == u
  }

  // A reconcile that launched for u ends without having recorded ID or failure: a
  // crash, a failed refetch, or a status write that does not commit.
  ghost predicate SetsBack(kind: Kind, l: Local, lab: Label, u: Uid) {
    && Shape(l) && Unsettled(l.worker).Some? && Unsettled(l.worker).value.uid == u
    && (|| lab.Crash?
        || (lab.CallGet? && !(lab.ok && l.versions[l.view].Some?))
        || (lab.CallWrite? && !Commits(kind, l, lab.outcome)))
  }

  // a, plus what one step does for u.
  ghost function Add(kind: Kind, a: Account, l: Local, lab: Label, u: Uid): Account {
    if LaunchesFor(l, lab, u) then a.(launches := a.launches + 1, attempted := a.attempted + {l.worker.mem.generation})
    else if EditsOf(l, lab, u) then a.(edits := a.edits + 1)
    else if SetsBack(kind, l, lab, u) then a.(setbacks := a.setbacks + 1)
    else a
  }

  // What the first n steps of a run did for u.
  ghost function Tally(kind: Kind, ws: seq<World>, es: seq<Event>, n: nat, u: Uid): Account
    requires n <= |es| < |ws|
  {
    if n == 0 then Account(0, 0, 0, {})
    else
      var a, w, e := Tally(kind, ws, es, n - 1, u), ws[n - 1], es[n - 1];
      if e.key == u.key && e.key in w.locals then Add(kind, a, w.locals[e.key], e.lab, u) else a
  }

  lemma UserAdds(cfg: Config, key: string, l: Local, sh: Shared, lab: Label, u: Uid)
    requires Shape(l) && Enabled(cfg, key, l, sh, lab) && ByUser(lab)
    ensures AccountOf(NextUser(cfg, key, l, sh, lab).0.accounts, u)
        == Add(cfg.kind, AccountOf(l.accounts, u), l, lab, u)
  {
    match lab case UserCreate(_, _) => case UserEdit(_) => case UserMeta(_) => case UserDelete =>
  }

  lemma LaunchAdds(cfg: Config, l: Local, sh: Shared, lab: Label, u: Uid)
    requires l.worker.Launching? && lab.CallLaunch?
    ensures AccountOf(NextLaunch(cfg, l, sh, lab).0.accounts, u) == Add(cfg.kind, AccountOf(l.accounts, u), l, lab, u)
  {
    match lab.launch case LaunchOk => case LaunchHidden => case LaunchError =>
  }

  lemma WriteAdds(cfg: Config, l: Local, sh: Shared, out: WriteOutcome, u: Uid)
    requires Shape(l) && Writing(l.worker)
    ensures AccountOf(NextWrite(cfg, l, sh, out).0.accounts, u)
         == Add(cfg.kind, AccountOf(l.accounts, u), l, CallWrite(out), u)
  {
    hide Committed, AfterWrite, Sent, Conflict;
  }

  lemma StepAdds(cfg: Config, key: string, l: Local, sh: Shared, lab: Label, u: Uid)
    requires Shape(l) && Enabled(cfg, key, l, sh, lab)
    ensures AccountOf(Next(cfg, key, l, sh, lab).0.accounts, u) == Add(cfg.kind, AccountOf(l.accounts, u), l, lab, u)
  {
    if ByUser(lab) { UserAdds(cfg, key, l, sh, lab, u); }
    else if lab.CallLaunch? { LaunchAdds(cfg, l, sh, lab, u); }
    else if lab.CallWrite? { WriteAdds(cfg, l, sh, lab.outcome, u); }
  }

  lemma {:induction false} TallyIsAccount(cfg: Config, ws: seq<World>, es: seq<Event>, n: nat, u: Uid)
    requires IsRun(cfg, ws, es) && n <= |es| && u.key in ws[0].locals
    ensures u.key in ws[n].locals && AccountOf(ws[n].locals[u.key].accounts, u) == Tally(cfg.kind, ws, es, n, u)
  {
    hide Next;
    KeyInv(cfg, ws, es, n, u.key);
    if n > 0 {
      TallyIsAccount(cfg, ws, es, n - 1, u);
      KeyStep(cfg, ws, es, n - 1);
      var e, w := es[n - 1], ws[n - 1];
      if e.key == u.key {
        StepAdds(cfg, e.key, w.locals[e.key], w.shared, e.lab, u);
      }
    }
  }

  // Step m issues a creation call for u.
  ghost predicate CreatesAt(ws: seq<World>, es: seq<Event>, m: nat, u: Uid) {
    m < |es| < |ws| && es[m].key == u.key && u.key in ws[m].locals && LaunchesFor(ws[m].locals[u.key], es[m].lab, u)
  }

  // Step m edits the spec of u.
  ghost predicate EditsAt(ws: seq<World>, es: seq<Event>, m: nat, u: Uid) {
    m < |es| < |ws| && es[m].key == u.key && u.key in ws[m].locals && EditsOf(ws[m].locals[u.key], es[m].lab, u)
  }

  // Step m gives up on a creation call for u.
  ghost predicate SetsBackAt(kind: Kind, ws: seq<World>, es: seq<Event>, m: nat, u: Uid) {
    m < |es| < |ws| && es[m].key == u.key && u.key in ws[m].locals && SetsBack(kind, ws[m].locals[u.key], es[m].lab, u)
  }

  ghost function One(b: bool): nat {
    if b then 1 else 0
  }

  lemma AddCounts(kind: Kind, a: Account, l: Local, lab: Label, u: Uid)
    ensures var b := Add(kind, a, l, lab, u);
      && b.launches == a.launches + One(LaunchesFor(l, lab, u))
      && b.edits == a.edits + One(EditsOf(l, lab, u))
      && b.setbacks == a.setbacks + One(SetsBack(kind, l, lab, u))
  {
    hide Commits;
  }

  lemma TallyMore(cfg: Config, ws: seq<World>, es: seq<Event>, m: nat, u: Uid)
    requires IsRun(cfg, ws, es) && m < |es| && u.key in ws[0].locals
    ensures var a, b := Tally(cfg.kind, ws, es, m, u), Tally(cfg.kind, ws, es, m + 1, u);
      && b.launches == a.launches + One(CreatesAt(ws, es, m, u))
      && b.edits == a.edits + One(EditsAt(ws, es, m, u))
      && b.setbacks == a.setbacks + One(SetsBackAt(cfg.kind, ws, es, m, u))
  {
    hide Next, Inv, Add, LaunchesFor, EditsOf, SetsBack;
    KeyInv(cfg, ws, es, m, u.key);
    AddCounts(cfg.kind, Tally(cfg.kind, ws, es, m, u), ws[m].locals[u.key], es[m].lab, u);
  }

  // The counts between two points are the steps between them.
  lemma {:induction false} TallyBetween(cfg: Config, ws: seq<World>, es: seq<Event>, i: nat, j: nat, u: Uid)
    requires IsRun(cfg, ws, es) && i <= j <= |es| && u.key in ws[0].locals
    ensures var a, b := Tally(cfg.kind, ws, es, i, u), Tally(cfg.kind, ws, es, j, u);
      && a.launches <= b.launches && a.edits <= b.edits && a.setbacks <= b.setbacks
      && (a.launches == b.launches <==> forall m: nat | i <= m < j :: !CreatesAt(ws, es, m, u))
      && (a.edits == b.edits <==> forall m: nat | i <= m < j :: !EditsAt(ws, es, m, u))
      && (a.setbacks == b.setbacks <==> forall m: nat | i <= m < j :: !SetsBackAt(cfg.kind, ws, es, m, u))
    decreases j
  {
    hide Next, Inv, CreatesAt, EditsAt, SetsBackAt, Tally;
    if i < j {
      TallyBetween(cfg, ws, es, i, j - 1, u);
      TallyMore(cfg, ws, es, j - 1, u);
    }
  }

  // Creation calls for one object since a run began: at most one, plus one per spec edit,
  // plus one per setback. LaunchBounds states what holds between any two points.
  lemma LaunchBound(cfg: Config, ws: seq<World>, es: seq<Event>, n: nat, u: Uid)
    requires IsRun(cfg, ws, es) && n <= |es| && u.key in ws[0].locals
    ensures var t := Tally(cfg.kind, ws, es, n, u); t.launches <= 1 + t.edits + t.setbacks
  {
    TallyIsAccount(cfg, ws, es, n, u);
    KeyInv(cfg, ws, es, n, u.key);
    var l := ws[n].locals[u.key];
    if u in l.accounts {
      assert WithinBudget(l.accounts[u], Armed(Last(l.versions), l.worker, u));
    }
  }

  // ---- The failure path marks the generation it attempted, or not ----

  // setFailedStatus refetches before it writes, so what it marks as failed need not be
  // what was launched. It marks an attempted generation exactly when the refetched copy
  // is still the object and generation the launch was for.
  lemma FailureMarksAttempted(cfg: Config, ws: seq<World>, es: seq<Event>, n: nat, key: string)
    requires IsRun(cfg, ws, es) && n < |es| && es[n].key == key && key in ws[0].locals
    requires key in ws[n].locals && WorkerAt(ws[n], key).MarkingFailed? && WorkerAt(ws[n], key).cause.Some?
    requires Shape(ws[n].locals[key]) && es[n].lab.CallWrite? && Commits(cfg.kind, ws[n].locals[key], es[n].lab.outcome)
    ensures var o, c := WorkerAt(ws[n], key).mem, WorkerAt(ws[n], key).cause.value;
      && o.uid.key == key
      && IsStored(ws[n + 1], o.uid) && FailedForGeneration(StoredAt(ws[n + 1], key).value)
      && StoredAt(ws[n + 1], key).value.generation == o.generation
      && (o.generation in Tally(cfg.kind, ws, es, n, o.uid).attempted
          <==> o.uid == c.uid && o.generation == c.generation)
  {
    hide Next;
    KeyInv(cfg, ws, es, n, key);
    KeyStep(cfg, ws, es, n);
    var l, sh := ws[n].locals[key], ws[n].shared;
    MarkedAttempted(cfg.kind, key, l, sh, es[n].lab.outcome);
    TallyIsAccount(cfg, ws, es, n, l.worker.mem.uid);
    MarkedCopy(cfg, key, l, sh, es[n].lab.outcome);
  }

  lemma MarkedAttempted(kind: Kind, key: string, l: Local, sh: Shared, out: WriteOutcome)
    requires Inv(kind, key, l, sh) && Commits(kind, l, out) && l.worker.MarkingFailed? && l.worker.cause.Some?
    ensures var o, c := l.worker.mem, l.worker.cause.value;
      && Last(l.versions) == Some(o) && o.uid.key == key
      && (o.generation in AccountOf(l.accounts, o.uid).attempted <==> o.uid == c.uid && o.generation == c.generation)
  {
    CommitFromStored(kind, key, l, sh, out);
    assert VersionOk(kind, key, sh, |l.versions| - 1, l.worker.mem);
  }

  lemma MarkedCopy(cfg: Config, key: string, l: Local, sh: Shared, out: WriteOutcome)
    requires Shape(l) && l.worker.MarkingFailed? && Commits(cfg.kind, l, out)
    requires Last(l.versions) == Some(l.worker.mem)
    ensures var l' := Next(cfg, key, l, sh, CallWrite(out)).0;
      && Shape(l') && Last(l'.versions).Some?
      && Last(l'.versions).value.uid == l.worker.mem.uid
      && Last(l'.versions).value.generation == l.worker.mem.generation
      && FailedForGeneration(Last(l'.versions).value)
  {
  }

  // ---- Failed is final for its generation ----

  lemma NoLaunchWhenFailed(kind: Kind, key: string, l: Local, sh: Shared, lab: Label, a: Obj)
    requires Inv(kind, key, l, sh) && Last(l.versions) == Some(a) && FailedForGeneration(a)
    ensures !LaunchesFor(l, lab, a.uid)
  {
  }

  // ---- A reconcile that reads a Failed object asks nothing of the cloud ----

  // Step i is the read a reconcile starts with, and it returns a.
  ghost predicate ReadsAt(ws: seq<World>, es: seq<Event>, i: nat, key: string, a: Obj) {
    && i < |es| < |ws| && es[i] == Event(key, CallGet(true)) && key in ws[i].locals
    && var l := ws[i].locals[key];
       Shape(l) && l.worker.Fetching? && l.versions[l.view] == Some(a)
  }

  ghost predicate EndsReconcile(e: Event, key: string) {
    e.key == key && (e.lab.Finish? || e.lab.Crash?)
  }

  ghost predicate CallsCloud(lab: Label) {
    lab.ClientReady? || lab.ClientFails? || lab.CallLaunch? || lab.CallPoll? || lab.CallTerminate?
  }

  // All a reconcile can be at after reading a: returning, or adding the finalizer first.
  ghost predicate Aloof(w: Worker, a: Obj) {
    w.Returned? || w == AddingFinalizer(a)
  }

  lemma AloofStays(cfg: Config, key: string, l: Local, sh: Shared, lab: Label, a: Obj)
    requires Shape(l) && Enabled(cfg, key, l, sh, lab) && Aloof(l.worker, a) && !lab.Finish? && !lab.Crash?
    ensures Aloof(Next(cfg, key, l, sh, lab).0.worker, a) && !CallsCloud(lab)
  {
    if !ByWorker(lab) {
      EnvironmentKeepsWorker(cfg, key, l, sh, lab);
    }
  }

  // From the read of a Failed, non-deleting object to the end of that reconcile no client
  // is made and the cloud is not called, whatever happens to the object meanwhile.
  lemma {:induction false} FailedReadCallsNothing(cfg: Config, ws: seq<World>, es: seq<Event>, i: nat, j: nat,
                                                  key: string, a: Obj)
    requires IsRun(cfg, ws, es) && i < j < |ws| && ReadsAt(ws, es, i, key, a)
    requires FailedForGeneration(a) && !a.deleting
    requires forall m | i < m < j :: !EndsReconcile(es[m], key)
    ensures key in ws[j].locals && Aloof(ws[j].locals[key].worker, a)
    ensures j < |es| && es[j].key == key ==> !CallsCloud(es[j].lab)
    decreases j
  {
    hide Next, Inv;
    KeyStep(cfg, ws, es, j - 1);
    if i == j - 1 {
      FailedRead(cfg, key, ws[i].locals[key], ws[i].shared, a);
    } else {
      FailedReadCallsNothing(cfg, ws, es, i, j - 1, key, a);
      if es[j - 1].key == key {
        InvShape(cfg.kind, key, ws[j - 1].locals[key], ws[j - 1].shared);
        AloofStays(cfg, key, ws[j - 1].locals[key], ws[j - 1].shared, es[j - 1].lab, a);
      }
    }
    if j < |es| && es[j].key == key && !EndsReconcile(es[j], key) {
      KeyStep(cfg, ws, es, j);
      AloofStays(cfg, key, ws[j].locals[key], ws[j].shared, es[j].lab, a);
    }
  }

  lemma InvShape(kind: Kind, key: string, l: Local, sh: Shared)
    requires Inv(kind, key, l, sh)
    ensures Shape(l)
  {
  }

  lemma FailedRead(cfg: Config, key: string, l: Local, sh: Shared, a: Obj)
    requires Shape(l) && l.worker.Fetching? && l.versions[l.view] == Some(a) && FailedForGeneration(a) && !a.deleting
    ensures Aloof(Next(cfg, key, l, sh, CallGet(true)).0.worker, a)
  {
  }

  // An object that is no longer stored never comes back.
  lemma GoneStaysGone(cfg: Config, key: string, l: Local, sh: Shared, lab: Label, u: Uid)
    requires Inv(cfg.kind, key, l, sh) && Enabled(cfg, key, l, sh, lab) && u.n < |l.versions|
    requires Last(l.versions).None? || Last(l.versions).value.uid != u
    ensures var st := Last(Next(cfg, key, l, sh, lab).0.versions); st.None? || st.value.uid != u
  {
    hide Next, Facts, Books, Ledger, Awake, WorkerOk;
    StepVersions(cfg, key, l, sh, lab);
    if ByUser(lab) {
      match lab case UserCreate(_, _) => case UserEdit(_) => case UserMeta(_) => case UserDelete =>
    } else if lab.CallWrite? && Commits(cfg.kind, l, lab.outcome) {
      CommitFromStored(cfg.kind, key, l, sh, lab.outcome);
    }
  }

  lemma {:induction false} StoredThroughout(cfg: Config, ws: seq<World>, es: seq<Event>, i: nat, j: nat, u: Uid)
    requires IsRun(cfg, ws, es) && i <= j < |ws| && u.key in ws[0].locals && IsStored(ws[i], u) && IsStored(ws[j], u)
    requires i < j
    ensures IsStored(ws[j - 1], u)
  {
    hide Next;
    KeyInv(cfg, ws, es, i, u.key);
    KeyStep(cfg, ws, es, j - 1);
    VersionsExtend(cfg, ws, es, i, j - 1, u.key);
    var l := ws[i].locals[u.key];
    assert VersionOk(cfg.kind, u.key, ws[i].shared, |l.versions| - 1, Last(l.versions).value);
    if es[j - 1].key == u.key && !IsStored(ws[j - 1], u) {
      GoneStaysGone(cfg, u.key, ws[j - 1].locals[u.key], ws[j - 1].shared, es[j - 1].lab, u);
    }
  }

  // Once the server's object is Failed for its generation, every continuation that does
  // not raise the generation keeps phase, ID and ObservedGeneration, and launches nothing.
  lemma {:induction false} FailedIsFinal(cfg: Config, ws: seq<World>, es: seq<Event>, i: nat, j: nat, u: Uid)
    requires IsRun(cfg, ws, es) && i <= j < |ws| && u.key in ws[0].locals && IsStored(ws[i], u) && IsStored(ws[j], u)
    requires FailedForGeneration(StoredAt(ws[i], u.key).value)
    requires StoredAt(ws[i], u.key).value.generation == StoredAt(ws[j], u.key).value.generation
    ensures var a, b := StoredAt(ws[i], u.key).value, StoredAt(ws[j], u.key).value;
            b.status == a.status.(reason := b.status.reason)
    ensures Tally(cfg.kind, ws, es, j, u).launches == Tally(cfg.kind, ws, es, i, u).launches
    decreases j
  {
    hide Next;
    if i < j {
      ObjectEvolves(cfg, ws, es, i, j, u.key);
      StoredThroughout(cfg, ws, es, i, j, u);
      ObjectEvolves(cfg, ws, es, i, j - 1, u.key);
      ObjectEvolves(cfg, ws, es, j - 1, j, u.key);
      FailedIsFinal(cfg, ws, es, i, j - 1, u);
      KeyInv(cfg, ws, es, j - 1, u.key);
      NoLaunchWhenFailed(cfg.kind, u.key, ws[j - 1].locals[u.key], ws[j - 1].shared, es[j - 1].lab,
          StoredAt(ws[j - 1], u.key).value);
    }
  }
}
