// How often a resource is created for an object, between any two points of a run.
module LaunchBounds {
  import opened Resources
  import opened Machine
  import opened Invariants
  import opened PreservationWrites
  import opened Worlds
  import opened Safety
  import opened Launches
  import opened StatusChanges
  import opened Duplicates
  import opened Drift
  import Preservation

  // ---- One step ----

  ghost predicate SameStanding(l: Local, k: Local) {
    k.versions == l.versions && k.worker == l.worker
  }

  // Nothing in the protocol reads the accounts.
  lemma AccountsUnread(cfg: Config, key: string, l: Local, sh: Shared, lab: Label, accounts: Accounts)
    requires Shape(l) && Enabled(cfg, key, l, sh, lab)
    ensures Enabled(cfg, key, l.(accounts := accounts), sh, lab)
    ensures SameStanding(Next(cfg, key, l, sh, lab).0, Next(cfg, key, l.(accounts := accounts), sh, lab).0)
  {
    var k := l.(accounts := accounts);
    if ByUser(lab) {
      UserUnread(cfg, key, l, sh, lab, accounts);
    } else if lab.CallWrite? {
      WriteUnread(cfg, l, sh, lab.outcome, accounts);
    } else {
      hide NextUser, NextWrite, Dispatch, Setback;
      match lab
      case CallLaunch(out, _, _, _) => match out { case LaunchOk => case LaunchHidden => case LaunchError => }
      case _ =>
    }
  }

  lemma UserPushes(cfg: Config, key: string, l: Local, sh: Shared, lab: Label)
    requires Shape(l) && Enabled(cfg, key, l, sh, lab) && ByUser(lab)
    ensures SameStanding(NextUser(cfg, key, l, sh, lab).0, Push(l, Entered(key, l, sh, lab)))
  {
    match lab case UserCreate(_, _) => case UserEdit(_) => case UserMeta(_) => case UserDelete =>
  }

  lemma UserUnread(cfg: Config, key: string, l: Local, sh: Shared, lab: Label, accounts: Accounts)
    requires Shape(l) && Enabled(cfg, key, l, sh, lab) && ByUser(lab)
    requires Enabled(cfg, key, l.(accounts := accounts), sh, lab)
    ensures SameStanding(NextUser(cfg, key, l, sh, lab).0, NextUser(cfg, key, l.(accounts := accounts), sh, lab).0)
  {
    hide NextUser;
    UserPushes(cfg, key, l, sh, lab);
    UserPushes(cfg, key, l.(accounts := accounts), sh, lab);
  }

  lemma WriteUnread(cfg: Config, l: Local, sh: Shared, out: WriteOutcome, accounts: Accounts)
    requires Shape(l) && Writing(l.worker)
    ensures SameStanding(NextWrite(cfg, l, sh, out).0, NextWrite(cfg, l.(accounts := accounts), sh, out).0)
  {
    hide Committed, AfterWrite, Sent, Setback, Conflict;
  }

  // The account of u as it would be if all budget but one call had been used up.
  ghost function Tight(l: Local, u: Uid): Local
    requires l.versions != []
  {
    l.(accounts := l.accounts[u := Account(if Armed(Last(l.versions), l.worker, u) then 0 else 1, 0, 0,
                                           AccountOf(l.accounts, u).attempted)])
  }

  lemma TightInv(kind: Kind, key: string, l: Local, sh: Shared, u: Uid)
    requires Inv(kind, key, l, sh) && u.key == key && u.n < |l.versions|
    ensures Inv(kind, key, Tight(l, u), sh)
  {
    hide Facts, WorkerOk, Ledger;
    var t, st := Tight(l, u), Last(l.versions);
    forall v ensures AccountOf(t.accounts, v).attempted == AccountOf(l.accounts, v).attempted {}
    forall v | v in t.accounts ensures WithinBudget(t.accounts[v], Armed(st, l.worker, v)) {
      assert v != u ==> v in l.accounts;
    }
  }

  // A step that creates for u disarms it, and only an edit or a setback arms it again.
  lemma ArmedStep(cfg: Config, key: string, l: Local, sh: Shared, lab: Label, u: Uid)
    requires Inv(cfg.kind, key, l, sh) && Enabled(cfg, key, l, sh, lab) && u.key == key && u.n < |l.versions|
    ensures var l' := Next(cfg, key, l, sh, lab).0;
      && l'.versions != []
      && One(LaunchesFor(l, lab, u)) + One(Armed(Last(l'.versions), l'.worker, u))
         <= One(Armed(Last(l.versions), l.worker, u)) + One(EditsOf(l, lab, u)) + One(SetsBack(cfg.kind, l, lab, u))
  {
    hide Next, Armed, Facts, WorkerOk, Ledger, Awake, FenceHolds, AccountsKnown, AttemptsPast, Commits;
    var t := Tight(l, u);
    TightInv(cfg.kind, key, l, sh, u);
    AccountsUnread(cfg, key, l, sh, lab, t.accounts);
    StepKeeps(cfg, key, t, sh, lab);
    StepAdds(cfg, key, t, sh, lab, u);
    var k := Next(cfg, key, t, sh, lab).0;
    TightAdds(cfg.kind, l, lab, u);
    assert u in k.accounts ==> WithinBudget(k.accounts[u], Armed(Last(k.versions), k.worker, u));
  }

  lemma TightAdds(kind: Kind, l: Local, lab: Label, u: Uid)
    requires l.versions != []
    ensures var t := Tight(l, u); var a := Add(kind, AccountOf(t.accounts, u), t, lab, u);
      && a.launches == 1 - One(Armed(Last(l.versions), l.worker, u)) + One(LaunchesFor(l, lab, u))
      && a.edits == One(EditsOf(l, lab, u)) && a.setbacks == One(SetsBack(kind, l, lab, u))
  {
    hide Armed;
  }

  // ---- Runs ----

  // u may get a creation call now without any edit or setback happening first.
  ghost predicate ArmedAt(w: World, u: Uid) {
    u.key in w.locals && Armed(StoredAt(w, u.key), WorkerAt(w, u.key), u)
  }

  ghost predicate ExistsAt(w: World, u: Uid) {
    u.key in w.locals && u.n < |w.locals[u.key].versions|
  }

  lemma ArmedAtStep(cfg: Config, ws: seq<World>, es: seq<Event>, m: nat, u: Uid)
    requires IsRun(cfg, ws, es) && m < |es| && u.key in ws[0].locals && ExistsAt(ws[m], u)
    ensures ExistsAt(ws[m + 1], u)
    ensures One(CreatesAt(ws, es, m, u)) + One(ArmedAt(ws[m + 1], u))
         <= One(ArmedAt(ws[m], u)) + One(EditsAt(ws, es, m, u)) + One(SetsBackAt(cfg.kind, ws, es, m, u))
  {
    hide Next, Inv, Armed, LaunchesFor, EditsOf, SetsBack;
    KeyInv(cfg, ws, es, m, u.key);
    KeyStep(cfg, ws, es, m);
    VersionsExtend(cfg, ws, es, m, m + 1, u.key);
    if es[m].key == u.key {
      ArmedStep(cfg, u.key, ws[m].locals[u.key], ws[m].shared, es[m].lab, u);
    }
  }

  // Between any two points of a run, an object gets no more creation calls than the one it
  // may be armed for, and one for each edit and each setback in between.
  lemma {:induction false} LaunchBoundBetween(cfg: Config, ws: seq<World>, es: seq<Event>, i: nat, j: nat, u: Uid)
    requires IsRun(cfg, ws, es) && i <= j <= |es| && u.key in ws[0].locals && ExistsAt(ws[i], u)
    ensures ExistsAt(ws[j], u)
    ensures var a, b := Tally(cfg.kind, ws, es, i, u), Tally(cfg.kind, ws, es, j, u);
            (b.launches - a.launches) + One(ArmedAt(ws[j], u))
              <= One(ArmedAt(ws[i], u)) + (b.edits - a.edits) + (b.setbacks - a.setbacks)
    decreases j
  {
    hide Next, Inv, ArmedAt, ExistsAt, CreatesAt, EditsAt, SetsBackAt, Tally;
    if i < j {
      LaunchBoundBetween(cfg, ws, es, i, j - 1, u);
      ArmedAtStep(cfg, ws, es, j - 1, u);
      TallyMore(cfg, ws, es, j - 1, u);
    }
  }

  lemma CreatesFor(cfg: Config, ws: seq<World>, es: seq<Event>, m: nat, u: Uid)
    requires IsRun(cfg, ws, es) && m < |es| && u.key in ws[0].locals && CreatesAt(ws, es, m, u)
    ensures ExistsAt(ws[m], u) && ArmedAt(ws[m], u) && ExistsAt(ws[m + 1], u) && !ArmedAt(ws[m + 1], u)
    ensures !EditsAt(ws, es, m, u) && !SetsBackAt(cfg.kind, ws, es, m, u)
  {
    hide Next;
    KeyInv(cfg, ws, es, m, u.key);
    KeyStep(cfg, ws, es, m);
    CreatingExists(cfg.kind, u.key, ws[m].locals[u.key], ws[m].shared);
    ArmedAtStep(cfg, ws, es, m, u);
    CreatingDisarms(cfg, u.key, ws[m].locals[u.key], ws[m].shared, es[m].lab, u);
  }

  lemma CreatingExists(kind: Kind, key: string, l: Local, sh: Shared)
    requires Inv(kind, key, l, sh) && l.worker.Launching?
    ensures l.worker.mem.uid.key == key && l.worker.mem.uid.n < |l.versions|
  {
    Preservation.KnownIndex(kind, key, l.versions, sh, l.worker.mem);
  }

  lemma CreatingDisarms(cfg: Config, key: string, l: Local, sh: Shared, lab: Label, u: Uid)
    requires Shape(l) && Enabled(cfg, key, l, sh, lab) && LaunchesFor(l, lab, u)
    ensures var l' := Next(cfg, key, l, sh, lab).0; !Armed(Last(l'.versions), l'.worker, u)
  {
    match lab.launch case LaunchOk => case LaunchHidden => case LaunchError =>
  }

  // There is no loop: between two creation calls for one object lies an edit of it, or a
  // reconcile that could store neither the ID nor the failure of the first.
  lemma NoRepeat(cfg: Config, ws: seq<World>, es: seq<Event>, i: nat, j: nat, u: Uid)
    requires IsRun(cfg, ws, es) && i < j < |es| && u.key in ws[0].locals
    requires CreatesAt(ws, es, i, u) && CreatesAt(ws, es, j, u)
    ensures exists m: nat | i < m < j :: EditsAt(ws, es, m, u) || SetsBackAt(cfg.kind, ws, es, m, u)
  {
    hide Next, Inv, ArmedAt, ExistsAt, CreatesAt, EditsAt, SetsBackAt, Tally;
    CreatesFor(cfg, ws, es, i, u);
    CreatesFor(cfg, ws, es, j, u);
    LaunchBoundBetween(cfg, ws, es, i + 1, j, u);
    TallyBetween(cfg, ws, es, i + 1, j, u);
  }

  // ---- What a setback leaves behind ----

  // While a creation call is unsettled its object, if stored, shows the fence.
  lemma UnsettledFence(kind: Kind, key: string, l: Local, sh: Shared)
    requires Inv(kind, key, l, sh) && Unsettled(l.worker).Some?
    requires Last(l.versions).Some? && Last(l.versions).value.uid == Unsettled(l.worker).value.uid
    ensures Last(l.versions).value.status.id == "" && Last(l.versions).value.status.phase != Failed
  {
    hide Facts, Ledger, Awake, LaunchBudget, AccountsKnown, AttemptsPast;
  }

  lemma OutcomeStep(cfg: Config, key: string, l: Local, sh: Shared, lab: Label, u: Uid)
    requires Inv(cfg.kind, key, l, sh) && Enabled(cfg, key, l, sh, lab)
    requires Unsettled(l.worker).Some? && Unsettled(l.worker).value.uid == u
    requires var l' := Next(cfg, key, l, sh, lab).0;
      && Unsettled(l'.worker).None? && Last(l'.versions).Some? && Last(l'.versions).value.uid == u
    ensures var v := Last(Next(cfg, key, l, sh, lab).0.versions).value;
      SetsBack(cfg.kind, l, lab, u) <==> v.status.id == "" && v.status.phase != Failed
  {
    hide Next, Facts, Ledger, Awake, Books, Committed, Sent;
    StepStatus(cfg, key, l, sh, lab);
    StepVersions(cfg, key, l, sh, lab);
    SettlesOnly(cfg, key, l, sh, lab);
    if Last(l.versions).Some? && Last(l.versions).value.uid == u {
      UnsettledFence(cfg.kind, key, l, sh);
    }
    if Overwrites(cfg.kind, l, lab) {
      OutcomeSent(cfg.kind, l.versions, l.worker, sh);
    }
  }

  lemma OutcomeSent(kind: Kind, vs: Versions, w: Worker, sh: Shared)
    requires WorkerOk(kind, vs, w, sh) && Writing(w) && Unsettled(w).Some?
    ensures var s := Sent(kind, w).status; s.id != "" || s.phase == Failed
  {
  }

  // The ways an unsettled creation call is settled.
  lemma SettlesOnly(cfg: Config, key: string, l: Local, sh: Shared, lab: Label)
    requires Shape(l) && Enabled(cfg, key, l, sh, lab)
    requires Unsettled(l.worker).Some? && Unsettled(Next(cfg, key, l, sh, lab).0.worker).None?
    ensures SetsBack(cfg.kind, l, lab, Unsettled(l.worker).value.uid) || Overwrites(cfg.kind, l, lab)
  {
    hide Committed, AfterWrite, Sent, Dispatch, Setback;
    if !ByWorker(lab) {
      EnvironmentKeepsWorker(cfg, key, l, sh, lab);
    }
  }

  // The reconcile that made a creation call for u ends, and u is still stored: it was a setback
  // exactly if u is left with neither an ID nor the phase Failed.
  lemma OutcomeExactly(cfg: Config, ws: seq<World>, es: seq<Event>, m: nat, u: Uid)
    requires IsRun(cfg, ws, es) && m < |es| && u.key in ws[0].locals
    requires u.key in ws[m].locals && u.key in ws[m + 1].locals && IsStored(ws[m + 1], u)
    requires Unsettled(WorkerAt(ws[m], u.key)).Some? && Unsettled(WorkerAt(ws[m], u.key)).value.uid == u
    requires Unsettled(WorkerAt(ws[m + 1], u.key)).None?
    ensures var v := StoredAt(ws[m + 1], u.key).value;
      SetsBackAt(cfg.kind, ws, es, m, u) <==> v.status.id == "" && v.status.phase != Failed
  {
    hide Next, Inv, SetsBack, Unsettled;
    KeyInv(cfg, ws, es, m, u.key);
    KeyStep(cfg, ws, es, m);
    OutcomeStep(cfg, u.key, ws[m].locals[u.key], ws[m].shared, es[m].lab, u);
  }

  // A creation call is issued while its object, if stored, shows that it is being created.
  lemma CreatesWhileShown(cfg: Config, ws: seq<World>, es: seq<Event>, m: nat, u: Uid)
    requires IsRun(cfg, ws, es) && m < |es| && u.key in ws[0].locals && CreatesAt(ws, es, m, u) && IsStored(ws[m], u)
    ensures var s := StoredAt(ws[m], u.key).value.status;
      s.id == "" && s.phase == (match cfg.kind case Instance => Provisioning case Policy => Creating)
  {
    hide Next, Inv;
    KeyInv(cfg, ws, es, m, u.key);
    LaunchingFence(cfg.kind, u.key, ws[m].locals[u.key], ws[m].shared);
  }

  lemma LaunchingFence(kind: Kind, key: string, l: Local, sh: Shared)
    requires Inv(kind, key, l, sh) && l.worker.Launching?
    requires Last(l.versions).Some? && Last(l.versions).value.uid == l.worker.mem.uid
    ensures Last(l.versions).value.status.id == "" && Last(l.versions).value.status.phase == FencePhase(kind)
  {
    hide Facts, Ledger, Awake, LaunchBudget, AccountsKnown, AttemptsPast;
  }

  // ---- Failed objects ----

  // u, if stored, is Failed for its generation or deleting, and no creation call for it is
  // under way.
  ghost predicate Quiet(st: Option<Obj>, w: Worker, u: Uid) {
    && (st.Some? && st.value.uid == u ==> st.value.deleting || FailedForGeneration(st.value))
    && (InLaunch(w).Some? ==> InLaunch(w).value.uid != u)
  }

  lemma FailedQuiet(kind: Kind, key: string, l: Local, sh: Shared, u: Uid)
    requires Inv(kind, key, l, sh)
    requires Last(l.versions).Some? && Last(l.versions).value.uid == u && FailedForGeneration(Last(l.versions).value)
    ensures Quiet(Last(l.versions), l.worker, u)
  {
    hide Facts, Ledger, Awake, LaunchBudget, AccountsKnown, AttemptsPast;
  }

  // A write that overwrites the status of a quiet object is a failure write.
  lemma QuietOverwrite(kind: Kind, key: string, l: Local, sh: Shared, lab: Label, u: Uid)
    requires Inv(kind, key, l, sh) && Overwrites(kind, l, lab) && Quiet(Some(l.worker.mem), l.worker, u)
    requires l.worker.mem.uid == u
    ensures var s := Sent(kind, l.worker).status;
            s.phase == Failed && s.observed == l.worker.mem.generation && !l.worker.Fencing?
  {
    hide Facts, Ledger, Awake, Books;
  }

  lemma QuietStep(cfg: Config, key: string, l: Local, sh: Shared, lab: Label, u: Uid)
    requires Inv(cfg.kind, key, l, sh) && Enabled(cfg, key, l, sh, lab) && u.n < |l.versions|
    requires Quiet(Last(l.versions), l.worker, u) && !EditsOf(l, lab, u)
    ensures var l' := Next(cfg, key, l, sh, lab).0; Quiet(Last(l'.versions), l'.worker, u)
  {
    hide Next, Inv, Sent, Overwrites;
    InvShape(cfg.kind, key, l, sh);
    StepStatus(cfg, key, l, sh, lab);
    LaunchGoesOn(cfg, key, l, sh, lab);
    var a, b := Last(l.versions), Last(Next(cfg, key, l, sh, lab).0.versions);
    if a.None? || a.value.uid != u {
      GoneStaysGone(cfg, key, l, sh, lab, u);
    } else if b.Some? && !lab.UserCreate? {
      StepObject(cfg, key, l, sh, lab);
    }
    if Overwrites(cfg.kind, l, lab) {
      OverwriterStored(cfg.kind, key, l, sh, lab);
      if l.worker.mem.uid == u {
        QuietOverwrite(cfg.kind, key, l, sh, lab, u);
      } else if l.worker.Fencing? {
        FencedUid(cfg, key, l, sh, lab);
      }
    }
  }

  lemma OverwriterStored(kind: Kind, key: string, l: Local, sh: Shared, lab: Label)
    requires Inv(kind, key, l, sh) && Overwrites(kind, l, lab)
    ensures Writing(l.worker) && Last(l.versions) == Some(l.worker.mem)
  {
    CommitFromStored(kind, key, l, sh, lab.outcome);
  }

  lemma {:induction false} StaysQuiet(cfg: Config, ws: seq<World>, es: seq<Event>, i: nat, j: nat, u: Uid)
    requires IsRun(cfg, ws, es) && i <= j <= |es| && u.key in ws[0].locals
    requires IsStored(ws[i], u) && FailedForGeneration(StoredAt(ws[i], u.key).value)
    requires forall m: nat | i <= m < j :: !EditsAt(ws, es, m, u)
    ensures u.key in ws[j].locals && Quiet(StoredAt(ws[j], u.key), WorkerAt(ws[j], u.key), u) && ExistsAt(ws[j], u)
    decreases j
  {
    hide Next, Inv, Quiet, EditsOf;
    KeyInv(cfg, ws, es, j, u.key);
    if i == j {
      FailedQuiet(cfg.kind, u.key, ws[i].locals[u.key], ws[i].shared, u);
      StoredExists(cfg.kind, u.key, ws[i].locals[u.key], ws[i].shared);
    } else {
      StaysQuiet(cfg, ws, es, i, j - 1, u);
      VersionsExtend(cfg, ws, es, j - 1, j, u.key);
      KeyInv(cfg, ws, es, j - 1, u.key);
      KeyStep(cfg, ws, es, j - 1);
      assert !EditsAt(ws, es, j - 1, u);
      if es[j - 1].key == u.key {
        QuietStep(cfg, u.key, ws[j - 1].locals[u.key], ws[j - 1].shared, es[j - 1].lab, u);
      }
    }
  }

  lemma StoredExists(kind: Kind, key: string, l: Local, sh: Shared)
    requires Inv(kind, key, l, sh) && Last(l.versions).Some?
    ensures Last(l.versions).value.uid.n < |l.versions|
  {
    assert VersionOk(kind, key, sh, |l.versions| - 1, Last(l.versions).value);
  }

  // From an object that is Failed for its generation on, no creation call is issued for it
  // until its spec is edited, also when it is deleted and vanishes.
  lemma FailedNeverCreates(cfg: Config, ws: seq<World>, es: seq<Event>, i: nat, j: nat, u: Uid)
    requires IsRun(cfg, ws, es) && i <= j <= |es| && u.key in ws[0].locals
    requires IsStored(ws[i], u) && FailedForGeneration(StoredAt(ws[i], u.key).value)
    requires forall m: nat | i <= m < j :: !EditsAt(ws, es, m, u)
    ensures forall m: nat | i <= m < j :: !CreatesAt(ws, es, m, u)
    ensures Tally(cfg.kind, ws, es, j, u).launches == Tally(cfg.kind, ws, es, i, u).launches
  {
    hide Next, Inv, EditsAt;
    forall m: nat | i <= m < j ensures !CreatesAt(ws, es, m, u) {
      StaysQuiet(cfg, ws, es, i, m, u);
    }
    TallyBetween(cfg, ws, es, i, j, u);
  }
}
