// How far a cloud resource lags behind the spec it was created for. The reconcilers send a
// spec once, with the creation call, and never again.
module Drift {
  import opened Resources
  import opened Machine
  import opened Invariants
  import opened Preservation
  import opened PreservationWrites
  import opened Worlds
  import opened Safety
  import opened Launches
  import opened Requests
  import opened StatusChanges
  import opened Convergence

  // ---- A generation counts the edits of an object, and its deletion ----

  ghost predicate SameSpec(a: Obj, b: Obj) {
    b.uid == a.uid && b.generation == a.generation && b.deleting == a.deleting && b.spec == a.spec
  }

  lemma UserObject(cfg: Config, key: string, l: Local, sh: Shared, lab: Label)
    requires Shape(l) && Enabled(cfg, key, l, sh, lab) && ByUser(lab) && !lab.UserCreate?
    requires Last(NextUser(cfg, key, l, sh, lab).0.versions).Some?
    ensures Last(l.versions).Some?
    ensures var a, b := Last(l.versions).value, Last(NextUser(cfg, key, l, sh, lab).0.versions).value;
      match lab
      case UserEdit(spec) => SameSpec(a.(spec := spec, generation := a.generation + 1), b)
      case UserDelete => SameSpec(a.(deleting := true, generation := a.generation + 1), b) && !a.deleting
      case _ => SameSpec(a, b)
  {
    match lab case UserEdit(_) => case UserMeta(_) => case UserDelete =>
  }

  // What a step makes of the stored object: only users change spec, generation or deletion.
  lemma StepObject(cfg: Config, key: string, l: Local, sh: Shared, lab: Label)
    requires Inv(cfg.kind, key, l, sh) && Enabled(cfg, key, l, sh, lab)
    requires !lab.UserCreate? && Last(Next(cfg, key, l, sh, lab).0.versions).Some?
    ensures Last(l.versions).Some?
    ensures var a, b := Last(l.versions).value, Last(Next(cfg, key, l, sh, lab).0.versions).value;
      match lab
      case UserEdit(spec) => SameSpec(a.(spec := spec, generation := a.generation + 1), b)
      case UserDelete => SameSpec(a.(deleting := true, generation := a.generation + 1), b) && !a.deleting
      case _ => SameSpec(a, b)
  {
    hide Next, Facts, Books, Ledger, Awake, WorkerOk, Committed, Sent, Setback, AfterWrite, NextUser;
    StepVersions(cfg, key, l, sh, lab);
    if ByUser(lab) {
      UserObject(cfg, key, l, sh, lab);
    } else if lab.CallWrite? && Commits(cfg.kind, l, lab.outcome) {
      CommitFromStored(cfg.kind, key, l, sh, lab.outcome);
      CommitShape(cfg.kind, l.worker, sh.clock);
    }
  }

  ghost predicate Counted(st: Option<Obj>, accounts: Accounts) {
    st.Some? ==>
      st.value.generation == 1 + AccountOf(accounts, st.value.uid).edits + (if st.value.deleting then 1 else 0)
  }

  lemma CountedStep(cfg: Config, key: string, l: Local, sh: Shared, lab: Label)
    requires Inv(cfg.kind, key, l, sh) && Enabled(cfg, key, l, sh, lab) && Counted(Last(l.versions), l.accounts)
    ensures var l' := Next(cfg, key, l, sh, lab).0; Counted(Last(l'.versions), l'.accounts)
  {
    hide Next, Facts, Ledger, Awake, WorkerOk, SetsBack;
    var l' := Next(cfg, key, l, sh, lab).0;
    if lab.UserCreate? {
      StepVersions(cfg, key, l, sh, lab);
    } else if Last(l'.versions).Some? {
      StepObject(cfg, key, l, sh, lab);
      StepAdds(cfg, key, l, sh, lab, Last(l.versions).value.uid);
    }
  }

  lemma {:induction false} RunCounted(cfg: Config, ws: seq<World>, es: seq<Event>, i: nat, key: string)
    requires IsRun(cfg, ws, es) && i < |ws| && key in ws[0].locals
    ensures key in ws[i].locals && Counted(StoredAt(ws[i], key), ws[i].locals[key].accounts)
  {
    hide Next, Inv;
    KeyInv(cfg, ws, es, i, key);
    if i > 0 {
      RunCounted(cfg, ws, es, i - 1, key);
      KeyInv(cfg, ws, es, i - 1, key);
      KeyStep(cfg, ws, es, i - 1);
      if es[i - 1].key == key {
        CountedStep(cfg, key, ws[i - 1].locals[key], ws[i - 1].shared, es[i - 1].lab);
      }
    }
  }

  // ---- The resource of a recorded object ----

  // Step i records the ID of u.
  ghost predicate RecordsAt(ws: seq<World>, i: nat, u: Uid) {
    i + 1 < |ws| && GainsId(StoredAt(ws[i], u.key), StoredAt(ws[i + 1], u.key)) && IsStored(ws[i + 1], u)
  }

  // Every object with an ID had it recorded at some step.
  lemma {:induction false} RecordedBefore(cfg: Config, ws: seq<World>, es: seq<Event>, j: nat, u: Uid)
    requires IsRun(cfg, ws, es) && j < |ws| && u.key in ws[0].locals
    requires IsStored(ws[j], u) && StoredAt(ws[j], u.key).value.status.id != ""
    ensures exists i: nat | i < j :: RecordsAt(ws, i, u)
  {
    hide Next, Inv;
    KeyInv(cfg, ws, es, j, u.key);
    if j > 0 {
      RunStatus(cfg, ws, es, j - 1, u.key);
      if StoredAt(ws[j - 1], u.key).value.status.id != "" {
        RecordedBefore(cfg, ws, es, j - 1, u);
      } else {
        assert RecordsAt(ws, j - 1, u);
      }
    }
  }

  lemma {:induction false} RequestsStay(cfg: Config, ws: seq<World>, es: seq<Event>, i: nat, j: nat)
    requires IsRun(cfg, ws, es) && i <= j < |ws|
    ensures KeepsRequests(ws[i].shared, ws[j].shared)
    decreases j
  {
    hide Next, Inv;
    if i < j {
      RequestsStay(cfg, ws, es, i, j - 1);
      KeyStep(cfg, ws, es, j - 1);
      var w, e := ws[j - 1], es[j - 1];
      InvShape(cfg.kind, e.key, w.locals[e.key], w.shared);
      StepKeepsRequests(cfg, e.key, w.locals[e.key], w.shared, e.lab);
    }
  }

  // The recorded resource keeps the generation and the request it was recorded with, and
  // the object's generation has since grown by its edits, and by one if it is deleting.
  lemma BehindByEdits(cfg: Config, ws: seq<World>, es: seq<Event>, i: nat, j: nat, u: Uid)
    requires IsRun(cfg, ws, es) && u.key in ws[0].locals && RecordsAt(ws, i, u) && i < j < |ws| && IsStored(ws[j], u)
    ensures var b, v, id := StoredAt(ws[i + 1], u.key).value, StoredAt(ws[j], u.key).value,
                            StoredAt(ws[i + 1], u.key).value.status.id;
      && v.status.id == id && id in ws[j].shared.cloud
      && var r := ws[j].shared.cloud[id];
         && r.request == cfg.request(b.spec) && r.generation == b.generation
         && v.generation == r.generation + (if v.deleting then 1 else 0)
                            + (Tally(cfg.kind, ws, es, j, u).edits - Tally(cfg.kind, ws, es, i + 1, u).edits)
  {
    hide Next, Inv, Tally;
    RecordedAsRequested(cfg, ws, es, i, u.key);
    RecordedAlive(cfg, ws, es, i, u);
    ObjectEvolves(cfg, ws, es, i + 1, j, u.key);
    RequestsStay(cfg, ws, es, i + 1, j);
    RunCounted(cfg, ws, es, i + 1, u.key);
    RunCounted(cfg, ws, es, j, u.key);
    TallyIsAccount(cfg, ws, es, i + 1, u);
    TallyIsAccount(cfg, ws, es, j, u);
  }

  // An ID is only recorded on an object that is not deleting.
  lemma RecordedAlive(cfg: Config, ws: seq<World>, es: seq<Event>, i: nat, u: Uid)
    requires IsRun(cfg, ws, es) && u.key in ws[0].locals && RecordsAt(ws, i, u)
    ensures !StoredAt(ws[i + 1], u.key).value.deleting
  {
    hide Next, Inv, Overwrites;
    RunStatus(cfg, ws, es, i, u.key);
    KeyStep(cfg, ws, es, i);
    var l := ws[i].locals[u.key];
    OverwriterGains(cfg.kind, u.key, l, ws[i].shared, es[i].lab);
    StepObject(cfg, u.key, l, ws[i].shared, es[i].lab);
  }

  lemma OverwriterGains(kind: Kind, key: string, l: Local, sh: Shared, lab: Label)
    requires Inv(kind, key, l, sh) && Overwrites(kind, l, lab)
    requires l.worker.mem.status.id == "" && Sent(kind, l.worker).status.id != ""
    ensures lab.CallWrite? && l.worker.Recording? && !l.worker.mem.deleting
  {
  }

  // While an object is not deleting, its resource was created for its current generation,
  // and hence from its current spec, exactly as long as nobody edited the spec since the ID
  // was recorded.
  lemma UpToDateExactly(cfg: Config, ws: seq<World>, es: seq<Event>, i: nat, j: nat, u: Uid)
    requires IsRun(cfg, ws, es) && u.key in ws[0].locals && RecordsAt(ws, i, u) && i < j < |ws| && IsStored(ws[j], u)
    requires !StoredAt(ws[j], u.key).value.deleting
    ensures var v := StoredAt(ws[j], u.key).value;
      && v.status.id in ws[j].shared.cloud
      && var r := ws[j].shared.cloud[v.status.id];
         && (r.generation == v.generation <==> forall m: nat | i < m < j :: !EditsAt(ws, es, m, u))
         && (r.generation == v.generation ==> r.request == cfg.request(v.spec))
  {
    hide Next, Inv, Tally;
    BehindByEdits(cfg, ws, es, i, j, u);
    TallyBetween(cfg, ws, es, i + 1, j, u);
    ObservedCoversRequest(cfg, ws, es, j, u.key);
  }

  // ---- ObservedGeneration runs ahead of the resource ----

  // Lifecycle states whose sync leaves ObservedGeneration alone.
  ghost predicate Underway(kind: Kind, life: Life) {
    life == ProvisioningState || (kind == Instance && life == StartingState)
  }

  // Step m commits a write that observes a generation of u above g.
  ghost predicate ObservesAt(kind: Kind, ws: seq<World>, es: seq<Event>, m: nat, u: Uid, g: nat) {
    && OverwritesAt(kind, ws, es, m, u.key)
    && var w := WorkerAt(ws[m], u.key);
       && w.mem.uid == u && g < w.mem.generation
       && (w.MarkingFailed? || (w.Syncing? && !Underway(kind, w.life)))
  }

  // ObservedGeneration passes the generation the resource was created for exactly when a
  // sync or a failure is written for an edited or deleted object. The resource stays as it is.
  lemma {:induction false} ObservedAhead(cfg: Config, ws: seq<World>, es: seq<Event>, i: nat, j: nat, u: Uid)
    requires IsRun(cfg, ws, es) && u.key in ws[0].locals && RecordsAt(ws, i, u) && i < j < |ws| && IsStored(ws[j], u)
    ensures var v, id := StoredAt(ws[j], u.key).value, StoredAt(ws[i + 1], u.key).value.status.id;
      && id in ws[i + 1].shared.cloud
      && var g := ws[i + 1].shared.cloud[id].generation;
         g < v.status.observed <==> exists m: nat | i < m < j :: ObservesAt(cfg.kind, ws, es, m, u, g)
    decreases j
  {
    hide Next, Inv, ObservesAt;
    RecordedAsRequested(cfg, ws, es, i, u.key);
    if j > i + 1 {
      StoredThroughout(cfg, ws, es, i + 1, j, u);
      ObservedAhead(cfg, ws, es, i, j - 1, u);
      ObjectEvolves(cfg, ws, es, i + 1, j - 1, u.key);
      var id := StoredAt(ws[i + 1], u.key).value.status.id;
      ObservedStep(cfg, ws, es, j - 1, u, ws[i + 1].shared.cloud[id].generation);
    }
  }

  lemma ObservedStep(cfg: Config, ws: seq<World>, es: seq<Event>, m: nat, u: Uid, g: nat)
    requires IsRun(cfg, ws, es) && u.key in ws[0].locals && m < |es| && IsStored(ws[m], u) && IsStored(ws[m + 1], u)
    requires StoredAt(ws[m], u.key).value.status.id != ""
    ensures g < StoredAt(ws[m + 1], u.key).value.status.observed <==>
              g < StoredAt(ws[m], u.key).value.status.observed || ObservesAt(cfg.kind, ws, es, m, u, g)
  {
    hide Next, Inv, Overwrites, Sent;
    RunStatus(cfg, ws, es, m, u.key);
    KeyInv(cfg, ws, es, m, u.key);
    if OverwritesAt(cfg.kind, ws, es, m, u.key) {
      OverwritingObserved(cfg.kind, u.key, ws[m].locals[u.key], ws[m].shared, es[m].lab);
    }
  }

  lemma KnownObserved(kind: Kind, key: string, vs: Versions, sh: Shared, o: Obj)
    requires History(kind, key, vs, sh) && Known(vs, o)
    ensures o.status.observed <= o.generation
  {
    var i :| 0 <= i < |vs| && vs[i] == Some(o);
    assert VersionOk(kind, key, sh, i, o);
  }

  lemma OverwritingObserved(kind: Kind, key: string, l: Local, sh: Shared, lab: Label)
    requires Inv(kind, key, l, sh) && Overwrites(kind, l, lab) && l.worker.mem.status.id != ""
    ensures var w := l.worker;
      && (w.MarkingFailed? || w.Syncing?)
      && Sent(kind, w).status.observed
         == (if w.MarkingFailed? || !Underway(kind, w.life) then w.mem.generation
             else w.mem.status.observed)
      && w.mem.status.observed <= w.mem.generation
  {
    hide History, Books, Ledger, Awake;
    KnownObserved(kind, key, l.versions, sh, l.worker.mem);
  }

  // ---- Convergence leaves the resource behind ----

  // What undisturbed reconciling keeps of an object and of its resource.
  ghost predicate Kept(l: Local, sh: Shared, l': Local, sh': Shared) {
    && l.versions <= l'.versions && Last(l.versions).Some? && Last(l'.versions).Some?
    && SameSpec(Last(l.versions).value, Last(l'.versions).value)
    && KeepsRequests(sh, sh')
  }

  // Outside deletion, a step that is not a user's keeps the object and its spec.
  lemma KeptStep(cfg: Config, key: string, l: Local, sh: Shared, lab: Label)
    requires Inv(cfg.kind, key, l, sh) && Enabled(cfg, key, l, sh, lab) && !ByUser(lab)
    requires Last(l.versions).Some? && !Last(l.versions).value.deleting
    ensures var (l', sh') := Next(cfg, key, l, sh, lab); Kept(l, sh, l', sh')
  {
    hide Next, Facts, Books, Ledger, Awake, Committed;
    StepVersions(cfg, key, l, sh, lab);
    StepExtends(cfg, key, l, sh, lab);
    StepKeepsRequests(cfg, key, l, sh, lab);
    if lab.CallWrite? && Commits(cfg.kind, l, lab.outcome) {
      CommitFromStored(cfg.kind, key, l, sh, lab.outcome);
      CommitShape(cfg.kind, l.worker, sh.clock);
    }
    StepObject(cfg, key, l, sh, lab);
  }

  lemma {:induction false} DriveKept(cfg: Config, key: string, l: Local, sh: Shared, labs: seq<Label>)
    requires Inv(cfg.kind, key, l, sh) && Unattended(labs) && Drive(cfg, key, l, sh, labs).Some?
    requires Last(l.versions).Some? && !Last(l.versions).value.deleting
    ensures var r := Drive(cfg, key, l, sh, labs).value; Kept(l, sh, r.0, r.1)
    decreases |labs|
  {
    hide Next, Inv;
    if labs != [] {
      KeptStep(cfg, key, l, sh, labs[0]);
      StepKeeps(cfg, key, l, sh, labs[0]);
      var (l', sh') := Next(cfg, key, l, sh, labs[0]);
      DriveKept(cfg, key, l', sh', labs[1..]);
    }
  }

  // No number of undisturbed rounds ever sends an edited spec to an existing resource:
  // spec and generation stay as the user left them, and so does the request on record.
  lemma RoundsNeverApply(cfg: Config, key: string, l: Local, sh: Shared, id: string, life: Life, n: nat)
    requires AtPeace(cfg.kind, key, l, sh) && Rounds(cfg, key, l, sh, id, life, n).Some?
    ensures var r := Rounds(cfg, key, l, sh, id, life, n).value; Kept(l, sh, r.0, r.1)
  {
    hide Drive, Rounds;
    var labs := RoundsDriven(cfg, key, l, sh, id, life, n);
    DriveKept(cfg, key, l, sh, labs);
  }

  lemma ConvergedStatus(kind: Kind, key: string, l: Local, sh: Shared)
    requires AtPeace(kind, key, l, sh) && Converged(kind, l, sh)
    ensures var o := Last(l.versions).value;
      && Finalizer(kind) in o.finalizers && o.status.id != "" && o.status.id in sh.cloud
      && sh.cloud[o.status.id].life == ReadyLife(kind) && o.status.phase == ReadyPhase(kind)
      && o.status.observed == o.generation && !o.deleting
  {
  }

  // What a converged object has: the finalizer, a resource the cloud knows, the ready phase
  // the cloud reports, and its generation observed. What it has only if nobody edited it
  // since its ID was recorded: a resource made for that generation.
  lemma ConvergedMeans(cfg: Config, ws: seq<World>, es: seq<Event>, j: nat, u: Uid)
    requires IsRun(cfg, ws, es) && j < |ws| && u.key in ws[0].locals && u.key in ws[j].locals && IsStored(ws[j], u)
    requires AtPeace(cfg.kind, u.key, ws[j].locals[u.key], ws[j].shared)
    requires Converged(cfg.kind, ws[j].locals[u.key], ws[j].shared)
    ensures var o := StoredAt(ws[j], u.key).value;
      && Finalizer(cfg.kind) in o.finalizers && o.status.id in ws[j].shared.cloud
      && var r := ws[j].shared.cloud[o.status.id];
         && r.life == ReadyLife(cfg.kind) && o.status.phase == ReadyPhase(cfg.kind)
         && o.status.observed == o.generation
         && (exists i: nat | i < j :: RecordsAt(ws, i, u))
         && (forall i: nat | i < j && RecordsAt(ws, i, u) ::
               r.generation == o.generation <==> forall m: nat | i < m < j :: !EditsAt(ws, es, m, u))
         && (r.generation == o.generation ==> r.request == cfg.request(o.spec))
  {
    hide Next, Inv, AtPeace, Converged, EditsAt, RecordsAt;
    ConvergedStatus(cfg.kind, u.key, ws[j].locals[u.key], ws[j].shared);
    RecordedBefore(cfg, ws, es, j, u);
    forall i: nat | i < j && RecordsAt(ws, i, u)
      ensures var o := StoredAt(ws[j], u.key).value; var r := ws[j].shared.cloud[o.status.id];
        && (r.generation == o.generation <==> forall m: nat | i < m < j :: !EditsAt(ws, es, m, u))
        && (r.generation == o.generation ==> r.request == cfg.request(o.spec))
    {
      UpToDateExactly(cfg, ws, es, i, j, u);
    }
  }
}
