// Steps that store a new version keep the invariant.
module PreservationWrites {
  import opened Resources
  import opened Machine
  import opened Invariants
  import opened Preservation

  // ---- One more version ----

  lemma EvolvesTransitively(a: Obj, b: Obj, c: Obj)
    requires Evolves(a, b) && Evolves(b, c)
    ensures Evolves(a, c)
  {
  }

  // v may come next: it is a later state of what is stored, or a newborn object.
  ghost predicate Succeeds(vs: Versions, sh: Shared, v: Obj) {
    && v.rv == sh.clock
    && (|| v.uid.n == |vs|
        || (Last(vs).Some? && Last(vs).value.uid == v.uid && Evolves(Last(vs).value, v)))
  }

  lemma HistoryPush(kind: Kind, key: string, vs: Versions, sh: Shared, v: Option<Obj>, sh': Shared)
    requires History(kind, key, vs, sh)
    requires sh' == sh.(clock := sh.clock + 1)
    requires v.Some? ==> Succeeds(vs, sh, v.value) && VersionOk(kind, key, sh', |vs|, v.value)
    ensures History(kind, key, vs + [v], sh')
  {
    var vs', n := vs + [v], |vs|;
    forall i | 0 <= i < |vs'| && vs'[i].Some? ensures VersionOk(kind, key, sh', i, vs'[i].value) {
      if i < n {
        assert VersionOk(kind, key, sh, i, vs[i].value);
      }
    }
    forall i, j | 0 <= i < j < |vs'| ensures Follows(vs'[i], vs'[j]) {
      if j < n {
        assert Follows(vs[i], vs[j]);
      } else if v.Some? && vs[i].Some? {
        assert VersionOk(kind, key, sh, i, vs[i].value);
        if vs[i].value.uid == v.value.uid && i < n - 1 {
          assert Follows(vs[i], vs[n - 1]);
          EvolvesTransitively(vs[i].value, vs[n - 1].value, v.value);
        }
      }
    }
  }

  lemma LastFollows(kind: Kind, key: string, vs: Versions, sh: Shared)
    requires History(kind, key, vs, sh)
    ensures forall i | 0 <= i < |vs| - 1 :: Follows(vs[i], Last(vs))
  {
  }

  // Compare-and-swap: a write that does not conflict was made from the stored version.
  lemma SameVersion(kind: Kind, key: string, vs: Versions, sh: Shared, o: Obj)
    requires History(kind, key, vs, sh) && Known(vs, o)
    requires Last(vs).Some? && Last(vs).value.rv == o.rv
    ensures Last(vs).value == o
  {
    LastFollows(kind, key, vs, sh);
    var i :| 0 <= i < |vs| && vs[i] == Some(o);
  }

  lemma KnownPush(vs: Versions, v: Option<Obj>)
    ensures forall o | Known(vs, o) :: Known(vs + [v], o)
    ensures v.Some? ==> Known(vs + [v], v.value)
  {
    forall o | Known(vs, o) ensures Known(vs + [v], o) {
      var i :| 0 <= i < |vs| && vs[i] == Some(o);
      assert (vs + [v])[i] == Some(o);
    }
    assert (vs + [v])[|vs|] == v;
  }

  // ---- Writes by anyone but the worker ----

  ghost predicate ByUser(lab: Label) {
    lab.UserCreate? || lab.UserEdit? || lab.UserMeta? || lab.UserDelete?
  }

  // The version a user step stores.
  ghost function Entered(key: string, l: Local, sh: Shared, lab: Label): Option<Obj>
    requires Shape(l) && ByUser(lab) && (lab.UserCreate? || Last(l.versions).Some?)
  {
    var st := Last(l.versions);
    match lab
    case UserCreate(spec, f) => Some(Obj(Uid(key, |l.versions|), sh.clock, 1, false, f, spec, EMPTY_STATUS))
    case UserEdit(spec) => Some(st.value.(spec := spec, generation := st.value.generation + 1, rv := sh.clock))
    case UserMeta(f) => if st.value.deleting && f == {} then None else Some(st.value.(finalizers := f, rv := sh.clock))
    case UserDelete =>
      if st.value.finalizers == {} then None
      else Some(st.value.(deleting := true, generation := st.value.generation + 1, rv := sh.clock))
  }

  // A user step stores Entered, never the old version again, and only that.
  lemma UserStores(cfg: Config, key: string, l: Local, sh: Shared, lab: Label)
    requires Shape(l) && ByUser(lab) && Enabled(cfg, key, l, sh, lab)
    requires Last(l.versions).Some? ==> Last(l.versions).value.rv < sh.clock
    ensures var (l', sh') := NextUser(cfg, key, l, sh, lab); var v := Entered(key, l, sh, lab);
      && l'.versions == l.versions + [v] && sh' == sh.(clock := sh.clock + 1)
      && l' == l.(versions := l'.versions, accounts := l'.accounts)
      && (!lab.UserEdit? ==> l'.accounts == l.accounts)
      && (lab.UserEdit? ==>
            var a := AccountOf(l.accounts, v.value.uid);
            l'.accounts == l.accounts[v.value.uid := a.(edits := a.edits + 1)])
  {
    match lab case UserCreate(_, _) => case UserEdit(_) => case UserMeta(_) => case UserDelete =>
  }

  lemma UserSucceeds(cfg: Config, key: string, l: Local, sh: Shared, lab: Label)
    requires Shape(l) && ByUser(lab) && Enabled(cfg, key, l, sh, lab)
    requires Last(l.versions).Some? ==> VersionOk(cfg.kind, key, sh, |l.versions| - 1, Last(l.versions).value)
    ensures var v := Entered(key, l, sh, lab); v.Some? ==> Succeeds(l.versions, sh, v.value)
  {
    match lab case UserCreate(_, _) => case UserEdit(_) => case UserMeta(_) => case UserDelete =>
  }

  lemma UserVersionOk(cfg: Config, key: string, l: Local, sh: Shared, lab: Label)
    requires Shape(l) && ByUser(lab) && Enabled(cfg, key, l, sh, lab)
    requires Last(l.versions).Some? ==> VersionOk(cfg.kind, key, sh, |l.versions| - 1, Last(l.versions).value)
    requires TerminatedDeleted(Last(l.versions), sh) && "" !in sh.cloud
    ensures var v, sh' := Entered(key, l, sh, lab), sh.(clock := sh.clock + 1);
      && TerminatedDeleted(v, sh')
      && (v.Some? ==> VersionOk(cfg.kind, key, sh', |l.versions|, v.value))
      && (v.Some? && v.value.status.id != "" ==>
            Last(l.versions).Some? && v.value.status.id == Last(l.versions).value.status.id)
  {
    match lab case UserCreate(_, _) => case UserEdit(_) => case UserMeta(_) => case UserDelete =>
  }

  lemma UserFacts(cfg: Config, key: string, l: Local, sh: Shared, lab: Label)
    requires Shape(l) && ByUser(lab) && Enabled(cfg, key, l, sh, lab) && Facts(cfg.kind, key, l.versions, sh)
    ensures Facts(cfg.kind, key, l.versions + [Entered(key, l, sh, lab)], sh.(clock := sh.clock + 1))
  {
    hide Entered, VersionOk, Succeeds, TerminatedDeleted, Follows;
    var v, vs := Entered(key, l, sh, lab), l.versions;
    if Last(vs).Some? {
      assert VersionOk(cfg.kind, key, sh, |vs| - 1, Last(vs).value);
    }
    UserSucceeds(cfg, key, l, sh, lab);
    UserVersionOk(cfg, key, l, sh, lab);
    HistoryPush(cfg.kind, key, vs, sh, v, sh.(clock := sh.clock + 1));
    forall id | id in sh.lost ensures Absent(vs + [v], id) {
      assert Absent(vs, id);
    }
  }

  lemma UserWorker(kind: Kind, vs: Versions, v: Option<Obj>, w: Worker, sh: Shared)
    requires vs != [] && WorkerOk(kind, vs, w, sh)
    requires v.Some? ==> v.value.status == EMPTY_STATUS || (Last(vs).Some? && v.value.status == Last(vs).value.status)
    ensures WorkerOk(kind, vs + [v], w, sh.(clock := sh.clock + 1))
  {
    KnownPush(vs, v);
    if w.Recording? {
      assert Absent(vs + [v], w.id);
    }
  }

  lemma UserLedger(cfg: Config, key: string, l: Local, sh: Shared, lab: Label)
    requires Shape(l) && ByUser(lab) && Enabled(cfg, key, l, sh, lab)
    requires Ledger(cfg.kind, key, Last(l.versions), l.worker, sh)
    ensures Ledger(cfg.kind, key, Entered(key, l, sh, lab), l.worker, sh.(clock := sh.clock + 1))
  {
    var v, sh' := Entered(key, l, sh, lab), sh.(clock := sh.clock + 1);
    forall id | Owned(key, sh', id) ensures Accounted(cfg.kind, v, l.worker, sh', id) {
      assert Owned(key, sh, id);
      assert Accounted(cfg.kind, Last(l.versions), l.worker, sh, id);
      match lab case UserCreate(_, _) => case UserEdit(_) => case UserMeta(_) => case UserDelete =>
    }
  }

  lemma UserBooks(cfg: Config, key: string, l: Local, sh: Shared, lab: Label)
    requires Shape(l) && ByUser(lab) && Enabled(cfg, key, l, sh, lab)
    requires Books(key, l.versions, l.worker, l.accounts)
    requires var st := Last(l.versions);
      st.Some? ==> (st.value.rv < sh.clock && st.value.uid.n < |l.versions| && st.value.uid.key == key)
    requires InLaunch(l.worker).Some? ==> InLaunch(l.worker).value.uid.n < |l.versions|
    ensures var l' := NextUser(cfg, key, l, sh, lab).0; Books(key, l'.versions, l'.worker, l'.accounts)
  {
    UserStores(cfg, key, l, sh, lab);
    var l' := NextUser(cfg, key, l, sh, lab).0;
    var st, st' := Last(l.versions), Entered(key, l, sh, lab);
    forall u ensures AccountOf(l'.accounts, u).attempted == AccountOf(l.accounts, u).attempted {}
    forall u | u in l'.accounts ensures WithinBudget(l'.accounts[u], Armed(st', l.worker, u)) {
      assert u in l.accounts ==> WithinBudget(l.accounts[u], Armed(st, l.worker, u));
      match lab case UserCreate(_, _) => case UserEdit(_) => case UserMeta(_) => case UserDelete =>
    }
    match lab case UserCreate(_, _) => case UserEdit(_) => case UserMeta(_) => case UserDelete =>
  }

  lemma UserKeeps(cfg: Config, key: string, l: Local, sh: Shared, lab: Label)
    requires Inv(cfg.kind, key, l, sh) && Enabled(cfg, key, l, sh, lab) && ByUser(lab)
    ensures var (l', sh') := NextUser(cfg, key, l, sh, lab); Inv(cfg.kind, key, l', sh')
  {
    if Last(l.versions).Some? {
      assert VersionOk(cfg.kind, key, sh, |l.versions| - 1, Last(l.versions).value);
    }
    UserStores(cfg, key, l, sh, lab);
    UserFacts(cfg, key, l, sh, lab);
    UserWorker(cfg.kind, l.versions, Entered(key, l, sh, lab), l.worker, sh);
    UserLedger(cfg, key, l, sh, lab);
    if InLaunch(l.worker).Some? {
      KnownIndex(cfg.kind, key, l.versions, sh, InLaunch(l.worker).value);
    }
    UserBooks(cfg, key, l, sh, lab);
  }

  // ---- A write of the worker that reaches the server ----

  ghost predicate Commits(kind: Kind, l: Local, out: WriteOutcome) {
    Writing(l.worker) && !out.Rejected? && !Conflict(Last(l.versions), Sent(kind, l.worker))
  }

  // The stored object is the one the worker holds.
  lemma CommitFromStored(kind: Kind, key: string, l: Local, sh: Shared, out: WriteOutcome)
    requires Inv(kind, key, l, sh) && Commits(kind, l, out)
    ensures Last(l.versions) == Some(l.worker.mem)
  {
    SameVersion(kind, key, l.versions, sh, l.worker.mem);
  }

  // What a commit stores when it changes anything.
  ghost predicate GoodCommit(kind: Kind, key: string, vs: Versions, sh: Shared, o: Obj, w: Worker, v: Obj)
    requires Writing(w)
  {
    && v.rv == sh.clock && v.uid == o.uid && Evolves(o, v)
    && VersionOk(kind, key, sh.(clock := sh.clock + 1), |vs|, v)
    && v.deleting == o.deleting && v.generation == o.generation
    && v.status.id == (if w.Recording? then w.id else o.status.id)
  }

  // A commit stores the held object with a new version and either the sent status or the
  // sent finalizers; only dropping the last finalizer makes the object disappear.
  lemma CommitShape(kind: Kind, w: Worker, rv: nat)
    requires Writing(w)
    ensures var v, s := Committed(kind, w, w.mem, rv), Sent(kind, w);
      && (v.None? ==> w.Unfinalizing?)
      && (v.Some? ==> v.value.status == if WritesStatus(w) then s.status else w.mem.status)
      && (!WritesStatus(w) && s.finalizers != w.mem.finalizers ==> v != Some(w.mem))
      && (v.Some? && v.value != w.mem ==>
            v.value == if WritesStatus(w) then w.mem.(status := s.status, rv := rv)
                       else w.mem.(finalizers := s.finalizers, rv := rv))
  {
    match w
    case AddingFinalizer(_) =>
    case Fencing(_) =>
    case Recording(_, _) =>
    case MarkingFailed(_, _, _) =>
    case Syncing(_, _) =>
    case Unfinalizing(_) =>
  }

  lemma CommitEvolves(kind: Kind, vs: Versions, w: Worker, sh: Shared)
    requires Writing(w) && WorkerOk(kind, vs, w, sh) && w.mem.status.observed <= w.mem.generation
    ensures var v := Committed(kind, w, w.mem, sh.clock);
      v.Some? && v.value != w.mem ==> v.value.rv == sh.clock && v.value.uid == w.mem.uid && Evolves(w.mem, v.value)
    ensures Committed(kind, w, w.mem, sh.clock).None? ==> w.Unfinalizing?
  {
    hide Committed, Known;
    CommitShape(kind, w, sh.clock);
    if WritesStatus(w) {
      match w
      case Fencing(_) =>
      case Recording(_, _) =>
      case MarkingFailed(_, _, _) =>
      case Syncing(_, _) =>
    }
  }

  // The status a worker sends suits the object it holds.
  lemma SentStatusOk(kind: Kind, vs: Versions, w: Worker, sh: Shared)
    requires WritesStatus(w) && WorkerOk(kind, vs, w, sh) && w.mem.status.observed <= w.mem.generation
    requires NeedsId(w.mem.status.phase) ==> w.mem.status.id != ""
    ensures var s := Sent(kind, w).status;
      && s.observed <= w.mem.generation && s.id == (if w.Recording? then w.id else w.mem.status.id)
      && (NeedsId(s.phase) ==> s.id != "")
      && (w.Recording? ==> Finalizer(kind) in w.mem.finalizers)
  {
    hide Known, FailedForGeneration, Absent, Finalizer;
    match w
    case Fencing(_) =>
    case Recording(_, _) =>
    case MarkingFailed(_, _, _) =>
    case Syncing(_, _) =>
  }

  lemma CommitGood(kind: Kind, key: string, vs: Versions, w: Worker, sh: Shared)
    requires Writing(w) && WorkerOk(kind, vs, w, sh) && VersionOk(kind, key, sh, |vs|, w.mem)
    requires Recordable(w, sh)
    ensures var v := Committed(kind, w, w.mem, sh.clock);
      v.Some? && v.value != w.mem ==> GoodCommit(kind, key, vs, sh, w.mem, w, v.value)
    ensures Committed(kind, w, w.mem, sh.clock).None? ==> w.Unfinalizing?
  {
    hide Evolves, Committed;
    CommitShape(kind, w, sh.clock);
    CommitEvolves(kind, vs, w, sh);
    if WritesStatus(w) {
      StatusGood(kind, key, vs, w, sh);
    } else {
      FinalizersGood(kind, key, vs, w, sh);
    }
  }

  lemma StatusGood(kind: Kind, key: string, vs: Versions, w: Worker, sh: Shared)
    requires WritesStatus(w) && WorkerOk(kind, vs, w, sh) && VersionOk(kind, key, sh, |vs|, w.mem) && Recordable(w, sh)
    ensures VersionOk(kind, key, sh.(clock := sh.clock + 1), |vs|,
                      w.mem.(status := Sent(kind, w).status, rv := sh.clock))
    ensures Sent(kind, w).status.id == if w.Recording? then w.id else w.mem.status.id
  {
    hide Sent, WorkerOk, NeedsId;
    SentStatusOk(kind, vs, w, sh);
  }

  lemma FinalizersGood(kind: Kind, key: string, vs: Versions, w: Worker, sh: Shared)
    requires Writing(w) && !WritesStatus(w) && WorkerOk(kind, vs, w, sh) && VersionOk(kind, key, sh, |vs|, w.mem)
    ensures VersionOk(kind, key, sh.(clock := sh.clock + 1), |vs|,
                      w.mem.(finalizers := Sent(kind, w).finalizers, rv := sh.clock))
  {
    hide Known;
  }

  ghost predicate Recordable(w: Worker, sh: Shared) {
    w.Recording? ==> w.id in sh.cloud && sh.cloud[w.id].owner == w.mem.uid
  }

  lemma StoredGood(kind: Kind, key: string, l: Local, sh: Shared, out: WriteOutcome)
    requires Inv(kind, key, l, sh) && Commits(kind, l, out)
    ensures var o := l.worker.mem; var v := Committed(kind, l.worker, o, sh.clock);
      && Last(l.versions) == Some(o)
      && VersionOk(kind, key, sh, |l.versions| - 1, o)
      && (v.Some? && v.value != o ==> GoodCommit(kind, key, l.versions, sh, o, l.worker, v.value))
      && (v.None? ==> l.worker.Unfinalizing?)
  {
    CommitFromStored(kind, key, l, sh, out);
    var o := l.worker.mem;
    assert VersionOk(kind, key, sh, |l.versions| - 1, o);
    CommitGood(kind, key, l.versions, l.worker, sh);
  }

  lemma CommitFacts(kind: Kind, key: string, l: Local, sh: Shared, v: Option<Obj>)
    requires Facts(kind, key, l.versions, sh) && WorkerOk(kind, l.versions, l.worker, sh) && Writing(l.worker)
    requires Last(l.versions) == Some(l.worker.mem) && v != Last(l.versions)
    requires v.Some? ==> GoodCommit(kind, key, l.versions, sh, l.worker.mem, l.worker, v.value)
    ensures Facts(kind, key, l.versions + [v], sh.(clock := sh.clock + 1))
  {
    var vs := l.versions;
    HistoryPush(kind, key, vs, sh, v, sh.(clock := sh.clock + 1));
    forall id | id in sh.lost ensures Absent(vs + [v], id) {
      assert Absent(vs, id);
      assert vs[|vs| - 1].value.status.id != id;
    }
  }

  lemma CommitLedger(kind: Kind, key: string, l: Local, sh: Shared, v: Option<Obj>, w': Worker, sh': Shared)
    requires l.versions != [] && Writing(l.worker) && Last(l.versions) == Some(l.worker.mem)
    requires WorkerOk(kind, l.versions, l.worker, sh)
    requires Ledger(kind, key, Last(l.versions), l.worker, sh) && "" !in sh.cloud
    requires v == Committed(kind, l.worker, l.worker.mem, sh.clock) && (v.None? ==> l.worker.Unfinalizing?)
    requires sh'.cloud == sh.cloud && sh'.lost == sh.lost
    ensures Ledger(kind, key, v, w', sh')
  {
    forall id | Owned(key, sh', id) ensures Accounted(kind, v, w', sh', id) {
      assert Owned(key, sh, id);
      assert Accounted(kind, Last(l.versions), l.worker, sh, id);
    }
  }

  // Where a committed write leaves the worker.
  function Settled(kind: Kind, w: Worker, v: Option<Obj>, out: WriteOutcome): Worker
    requires Writing(w)
  {
    if out.Reply? then AfterWrite(kind, w, v) else Returned(Retry)
  }

  // How a commit leaves the launch the worker is in.
  lemma CommitStands(kind: Kind, w: Worker, o: Obj, rv: nat, out: WriteOutcome)
    requires Writing(w) && w.mem == o
    ensures var v := Committed(kind, w, o, rv); var w' := Settled(kind, w, v, out);
      && Unsettled(w').None? && Held(w') == {}
      && (w'.Launching? <==> w.Fencing? && out.Reply? && v.Some?)
      && (w'.Launching? ==> Some(w'.mem) == v)
      && (w'.Launching? || w'.Returned?)
  {
    match w
    case AddingFinalizer(_) =>
    case Fencing(_) =>
    case Recording(_, _) =>
    case MarkingFailed(_, _, _) =>
    case Syncing(_, life) =>
    case Unfinalizing(_) =>
  }

  // What WorkerOk says of a worker about to write.
  ghost predicate WriterOk(kind: Kind, w: Worker) {
    && WorkerShape(kind, w)
    && (w.Fencing? ==> Launchable(kind, w.mem))
    && (w.Recording? ==> w.id != "")
    && (w.Syncing? ==> w.mem.status.id != "")
    && (w.Unfinalizing? ==> w.mem.deleting)
    && (w.AddingFinalizer? ==> !w.mem.deleting)
  }

  lemma WriterIsOk(kind: Kind, vs: Versions, w: Worker, sh: Shared)
    requires WorkerOk(kind, vs, w, sh)
    ensures WriterOk(kind, w)
  {
  }

  // A commit arms no object that was not armed before.
  lemma CommitArms(kind: Kind, w: Worker, v: Option<Obj>, w': Worker, rv: nat, u: Uid)
    requires Writing(w) && WriterOk(kind, w) && v == Committed(kind, w, w.mem, rv)
    requires Unsettled(w').None? && (w'.Launching? ==> w.Fencing? && Some(w'.mem) == v)
    requires v.Some? ==>
      v.value.uid == w.mem.uid && v.value.generation == w.mem.generation && v.value.deleting == w.mem.deleting
    ensures Armed(v, w', u) ==> Armed(Some(w.mem), w, u)
  {
    hide Committed;
    CommitShape(kind, w, rv);
  }

  lemma CommitBudget(kind: Kind, w: Worker, v: Option<Obj>, w': Worker, accounts: Accounts, rv: nat)
    requires Writing(w) && WriterOk(kind, w) && LaunchBudget(Some(w.mem), w, accounts)
    requires v == Committed(kind, w, w.mem, rv)
    requires Unsettled(w').None? && (w'.Launching? ==> w.Fencing? && Some(w'.mem) == v)
    requires v.Some? ==>
      v.value.uid == w.mem.uid && v.value.generation == w.mem.generation && v.value.deleting == w.mem.deleting
    ensures LaunchBudget(v, w', accounts)
  {
    hide Armed, Committed;
    forall u | u in accounts ensures WithinBudget(accounts[u], Armed(v, w', u)) {
      assert WithinBudget(accounts[u], Armed(Some(w.mem), w, u));
      CommitArms(kind, w, v, w', rv, u);
    }
  }

  lemma CommitBooks(kind: Kind, key: string, vs: Versions, w: Worker, accounts: Accounts, rv: nat, w': Worker, n: nat)
    requires vs != [] && Writing(w) && Last(vs) == Some(w.mem) && |vs| <= n
    requires Books(key, vs, w, accounts)
    requires WriterOk(kind, w)
    requires var v := Committed(kind, w, w.mem, rv);
      && Unsettled(w').None? && (w'.Launching? ==> w.Fencing? && Some(w'.mem) == v)
      && (v.Some? ==>
            v.value.uid == w.mem.uid && v.value.generation == w.mem.generation && v.value.deleting == w.mem.deleting)
    ensures var v := Committed(kind, w, w.mem, rv);
      && FenceHolds(v, w', accounts) && LaunchBudget(v, w', accounts)
      && AccountsKnown(key, n, accounts) && AttemptsPast(v, w', accounts)
  {
    hide Committed, LaunchBudget, WriterOk;
    CommitBudget(kind, w, Committed(kind, w, w.mem, rv), w', accounts, rv);
  }

  // The cache is behind whatever a write has just stored.
  lemma PushedAwake(kind: Kind, l: Local, v: Option<Obj>, w': Worker)
    requires Shape(l) && Awake(kind, l) && v != Last(l.versions) && (Live(w') ==> Live(l.worker))
    ensures Awake(kind, Push(l, v).(worker := w'))
  {
  }

  // A write that stored nothing new ends its reconcile only if nothing is left to do.
  lemma UnchangedAwake(kind: Kind, l: Local, w': Worker)
    requires Shape(l) && Awake(kind, l) && Live(l.worker) && !w'.Idle?
    requires w' == Returned(Stop) ==> Last(l.versions).Some? && FailedForGeneration(Last(l.versions).value)
    ensures Awake(kind, l.(worker := w'))
  {
  }

  lemma SettledQuiet(kind: Kind, w: Worker, v: Option<Obj>, out: WriteOutcome)
    requires Writing(w)
    ensures var w' := Settled(kind, w, v, out); !w'.Idle? && (Live(w') ==> Live(w))
  {
  }

  // A write that changes nothing is not one to the finalizers, and if it then stops it is a
  // failure write.
  lemma UnchangedStops(kind: Kind, w: Worker, rv: nat, out: WriteOutcome)
    requires Writing(w) && WorkerShape(kind, w) && Committed(kind, w, w.mem, rv) == Some(w.mem)
    ensures Live(w)
    ensures Settled(kind, w, Some(w.mem), out) == Returned(Stop) ==> FailedForGeneration(w.mem)
  {
    hide Committed;
    CommitShape(kind, w, rv);
  }

  lemma CommitAwake(kind: Kind, l: Local, rv: nat, out: WriteOutcome)
    requires Shape(l) && Writing(l.worker) && WorkerShape(kind, l.worker) && Awake(kind, l)
    requires Last(l.versions) == Some(l.worker.mem) && l.worker.mem.rv != rv
    ensures var v := Committed(kind, l.worker, l.worker.mem, rv);
            Awake(kind, Push(l, v).(worker := Settled(kind, l.worker, v, out)))
  {
    hide Committed, Awake, WorkerShape;
    var w := l.worker;
    var v := Committed(kind, w, w.mem, rv);
    if v == Last(l.versions) {
      UnchangedStops(kind, w, rv, out);
      SettledQuiet(kind, w, v, out);
      UnchangedAwake(kind, l, Settled(kind, w, v, out));
    } else {
      SettledQuiet(kind, w, v, out);
      PushedAwake(kind, l, v, Settled(kind, w, v, out));
    }
  }

  // The part of WorkerOk that a worker about to touch the finalizer list relies on.
  ghost predicate WorkerShape(kind: Kind, w: Worker) {
    && (w.AddingFinalizer? ==> Finalizer(kind) !in w.mem.finalizers)
    && (w.Unfinalizing? ==> Finalizer(kind) in w.mem.finalizers)
  }

  lemma FenceStores(kind: Kind, o: Obj, rv: nat)
    requires Launchable(kind, o)
    ensures var v := Committed(kind, Fencing(o), o, rv);
      v.Some? && Launchable(kind, v.value) && v.value.status.phase == FencePhase(kind)
  {
  }

  lemma CommitWorker(kind: Kind, vs: Versions, w: Worker, rv: nat, out: WriteOutcome, vs': Versions, sh': Shared)
    requires Writing(w) && (w.Fencing? ==> Launchable(kind, w.mem))
    requires var v := Committed(kind, w, w.mem, rv); v.Some? ==> Known(vs', v.value)
    ensures var v := Committed(kind, w, w.mem, rv); WorkerOk(kind, vs', Settled(kind, w, v, out), sh')
  {
    hide Committed, Launchable, Known;
    if w.Fencing? {
      FenceStores(kind, w.mem, rv);
    }
    match w
    case AddingFinalizer(_) =>
    case Fencing(_) =>
    case Recording(_, _) =>
    case MarkingFailed(_, _, _) =>
    case Syncing(_, _) =>
    case Unfinalizing(_) =>
  }

  lemma CommitStored(kind: Kind, key: string, l: Local, sh: Shared, out: WriteOutcome)
    requires Inv(kind, key, l, sh) && Commits(kind, l, out)
    ensures Last(l.versions) == Some(l.worker.mem) && l.worker.mem.rv < sh.clock
    ensures var v := Committed(kind, l.worker, l.worker.mem, sh.clock);
      && Facts(kind, key, Push(l, v).versions, Tick(l, sh, v))
      && Last(Push(l, v).versions) == v && |l.versions| <= |Push(l, v).versions|
      && (v.Some? ==> Known(Push(l, v).versions, v.value))
      && (v.Some? ==> v.value.uid == l.worker.mem.uid && v.value.generation == l.worker.mem.generation
                      && v.value.deleting == l.worker.mem.deleting)
      && (v.None? ==> l.worker.Unfinalizing?)
  {
    hide Committed, Books, Ledger, Awake, WorkerOk, History;
    StoredGood(kind, key, l, sh, out);
    var v := Committed(kind, l.worker, l.worker.mem, sh.clock);
    if v != Last(l.versions) {
      CommitFacts(kind, key, l, sh, v);
      KnownPush(l.versions, v);
    }
  }

  lemma CommitNext(cfg: Config, l: Local, sh: Shared, out: WriteOutcome)
    requires Shape(l) && Commits(cfg.kind, l, out) && Last(l.versions) == Some(l.worker.mem)
    ensures var v := Committed(cfg.kind, l.worker, l.worker.mem, sh.clock);
            NextWrite(cfg, l, sh, out) == (Push(l, v).(worker := Settled(cfg.kind, l.worker, v, out)), Tick(l, sh, v))
  {
    hide Committed, AfterWrite;
  }

  lemma CommitAllBooks(kind: Kind, key: string, l: Local, sh: Shared, out: WriteOutcome)
    requires Inv(kind, key, l, sh) && Commits(kind, l, out)
    ensures Last(l.versions) == Some(l.worker.mem)
    ensures var v := Committed(kind, l.worker, l.worker.mem, sh.clock);
      Books(key, Push(l, v).versions, Settled(kind, l.worker, v, out), l.accounts)
  {
    hide Committed, Settled, Facts, WorkerOk, Ledger, FenceHolds, LaunchBudget, AttemptsPast, AccountsKnown, Awake,
      Conflict, Sent, WriterOk, Tick;
    var w := l.worker;
    CommitStored(kind, key, l, sh, out);
    var v := Committed(kind, w, w.mem, sh.clock);
    WriterIsOk(kind, l.versions, w, sh);
    CommitStands(kind, w, w.mem, sh.clock, out);
    CommitBooks(kind, key, l.versions, w, l.accounts, sh.clock, Settled(kind, w, v, out), |Push(l, v).versions|);
  }

  // The state after a committed write keeps every part of the invariant.
  lemma CommitParts(kind: Kind, key: string, l: Local, sh: Shared, out: WriteOutcome)
    requires Inv(kind, key, l, sh) && Commits(kind, l, out)
    ensures Last(l.versions) == Some(l.worker.mem)
    ensures var v := Committed(kind, l.worker, l.worker.mem, sh.clock);
      var l1, sh', w' := Push(l, v), Tick(l, sh, v), Settled(kind, l.worker, v, out);
      && Shape(l1) && Facts(kind, key, l1.versions, sh') && WorkerOk(kind, l1.versions, w', sh')
      && Ledger(kind, key, Last(l1.versions), w', sh') && Books(key, l1.versions, w', l1.accounts)
      && Awake(kind, l1.(worker := w'))
  {
    hide Committed, Settled, History, WorkerOk, Ledger, Books, Awake, Conflict, Sent, Launchable, WorkerShape, Known;
    var w := l.worker;
    CommitStored(kind, key, l, sh, out);
    var v := Committed(kind, w, w.mem, sh.clock);
    var w', l1, sh' := Settled(kind, w, v, out), Push(l, v), Tick(l, sh, v);
    WriterIsOk(kind, l.versions, w, sh);
    CommitWorker(kind, l.versions, w, sh.clock, out, l1.versions, sh');
    CommitLedger(kind, key, l, sh, v, w', sh');
    CommitAllBooks(kind, key, l, sh, out);
    CommitAwake(kind, l, sh.clock, out);
  }

  lemma CommitKeeps(cfg: Config, key: string, l: Local, sh: Shared, out: WriteOutcome)
    requires Inv(cfg.kind, key, l, sh) && Commits(cfg.kind, l, out)
    ensures var (l', sh') := NextWrite(cfg, l, sh, out); Inv(cfg.kind, key, l', sh')
  {
    hide Committed, Settled, Facts, WorkerOk, Ledger, Books, Awake, NextWrite, Conflict, Sent;
    CommitParts(cfg.kind, key, l, sh, out);
    CommitNext(cfg, l, sh, out);
  }

  // ---- Every step ----

  lemma StepKeeps(cfg: Config, key: string, l: Local, sh: Shared, lab: Label)
    requires Inv(cfg.kind, key, l, sh) && Enabled(cfg, key, l, sh, lab)
    ensures var (l', sh') := Next(cfg, key, l, sh, lab); Inv(cfg.kind, key, l', sh')
  {
    match lab
    case UserCreate(_, _) => UserKeeps(cfg, key, l, sh, lab);
    case UserEdit(_) => UserKeeps(cfg, key, l, sh, lab);
    case UserMeta(_) => UserKeeps(cfg, key, l, sh, lab);
    case UserDelete => UserKeeps(cfg, key, l, sh, lab);
    case CacheMove(_) => QueueKeeps(cfg, key, l, sh, lab);
    case CloudMove(_, _) => CloudMoveKeeps(cfg, key, l, sh, lab);
    case TimerFires => QueueKeeps(cfg, key, l, sh, lab);
    case RetryFires => QueueKeeps(cfg, key, l, sh, lab);
    case Crash(_) => CrashKeeps(cfg, key, l, sh, lab);
    case Dequeue => QueueKeeps(cfg, key, l, sh, lab);
    case Finish => QueueKeeps(cfg, key, l, sh, lab);
    case CallGet(_) =>
      if l.worker.Fetching? { FetchKeeps(cfg, key, l, sh, lab); }
      else if lab.ok && l.versions[l.view].Some? { RefetchKeeps(cfg, key, l, sh, lab); }
      else { RefetchFailsKeeps(cfg, key, l, sh, lab); }
    case ClientReady => LocalMoveKeeps(cfg, key, l, sh, lab);
    case ClientFails(_) => LocalMoveKeeps(cfg, key, l, sh, lab);
    case CallPoll(_) => LocalMoveKeeps(cfg, key, l, sh, lab);
    case CallLaunch(_, _, _, _) => LaunchKeeps(cfg, key, l, sh, lab);
    case CallTerminate(_) => TerminateKeeps(cfg, key, l, sh, lab);
    case CallWrite(out) =>
      if Commits(cfg.kind, l, out) { CommitKeeps(cfg, key, l, sh, out); }
      else { WriteFailsKeeps(cfg, key, l, sh, lab); }
  }
}