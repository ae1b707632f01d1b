// What the stored status says, traced back to the writes that made it so.
module StatusChanges {
  import opened Resources
  import opened Machine
  import opened Invariants
  import opened PreservationWrites
  import opened Worlds
  import opened Safety
  import opened Launches

  // This step is a status write that commits.
  ghost predicate Overwrites(kind: Kind, l: Local, lab: Label) {
    lab.CallWrite? && WritesStatus(l.worker) && Commits(kind, l, lab.outcome)
  }

  // b is the same object as a with the same status, or a newborn one.
  ghost predicate Untouched(a: Option<Obj>, b: Option<Obj>) {
    b.Some? ==>
      if a.Some? then a.value.uid == b.value.uid && a.value.status == b.value.status
      else b.value.status == EMPTY_STATUS
  }

  // b is the object the worker held, under the status it sent.
  ghost predicate Overwritten(kind: Kind, w: Worker, a: Option<Obj>, b: Option<Obj>)
    requires Writing(w)
  {
    && a == Some(w.mem) && b.Some? && b.value.uid == w.mem.uid && b.value.generation == w.mem.generation
    && b.value.status == Sent(kind, w).status
  }

  lemma CommitOverwrites(cfg: Config, key: string, l: Local, sh: Shared, out: WriteOutcome)
    requires Inv(cfg.kind, key, l, sh) && Commits(cfg.kind, l, out)
    ensures var a, b := Last(l.versions), Last(NextWrite(cfg, l, sh, out).0.versions);
      if WritesStatus(l.worker) then Overwritten(cfg.kind, l.worker, a, b) else Untouched(a, b)
  {
    hide Inv, Committed, Sent;
    CommitFromStored(cfg.kind, key, l, sh, out);
    CommitShape(cfg.kind, l.worker, sh.clock);
  }

  lemma StepStatus(cfg: Config, key: string, l: Local, sh: Shared, lab: Label)
    requires Inv(cfg.kind, key, l, sh) && Enabled(cfg, key, l, sh, lab)
    ensures var a, b := Last(l.versions), Last(Next(cfg, key, l, sh, lab).0.versions);
      if Overwrites(cfg.kind, l, lab) then Overwritten(cfg.kind, l.worker, a, b) else Untouched(a, b)
  {
    hide Next, Facts, Books, Ledger, Awake, WorkerOk, Committed, Sent;
    StepVersions(cfg, key, l, sh, lab);
    if ByUser(lab) {
      match lab case UserCreate(_, _) => case UserEdit(_) => case UserMeta(_) => case UserDelete =>
    } else if lab.CallWrite? && Commits(cfg.kind, l, lab.outcome) {
      CommitOverwrites(cfg, key, l, sh, lab.outcome);
    }
  }

  ghost predicate OverwritesAt(kind: Kind, ws: seq<World>, es: seq<Event>, m: nat, key: string) {
    && m < |es| < |ws| && es[m].key == key && key in ws[m].locals
    && Overwrites(kind, ws[m].locals[key], es[m].lab)
  }

  // Step m of a run, as the object stored under key sees it.
  lemma RunStatus(cfg: Config, ws: seq<World>, es: seq<Event>, m: nat, key: string)
    requires IsRun(cfg, ws, es) && m < |es| && key in ws[0].locals
    ensures key in ws[m].locals
    ensures var a, b := StoredAt(ws[m], key), StoredAt(ws[m + 1], key);
      if OverwritesAt(cfg.kind, ws, es, m, key) then Overwritten(cfg.kind, ws[m].locals[key].worker, a, b)
      else Untouched(a, b)
  {
    hide Next, Inv, Sent, Overwrites, Overwritten;
    KeyInv(cfg, ws, es, m, key);
    KeyInv(cfg, ws, es, m + 1, key);
    KeyStep(cfg, ws, es, m);
    if es[m].key == key {
      StepStatus(cfg, key, ws[m].locals[key], ws[m].shared, es[m].lab);
    }
  }

  // ---- A failure reason ----

  // Step m commits a failure write for the object u.
  ghost predicate MarksAt(kind: Kind, ws: seq<World>, es: seq<Event>, m: nat, u: Uid) {
    && OverwritesAt(kind, ws, es, m, u.key)
    && WorkerAt(ws[m], u.key).MarkingFailed? && WorkerAt(ws[m], u.key).mem.uid == u
  }

  // A step leaves the reason as it is or makes it non-empty, the latter by a failure write.
  lemma ReasonStep(cfg: Config, ws: seq<World>, es: seq<Event>, m: nat, key: string)
    requires IsRun(cfg, ws, es) && m < |es| && key in ws[0].locals && StoredAt(ws[m + 1], key).Some?
    ensures var a, b := StoredAt(ws[m], key), StoredAt(ws[m + 1], key).value;
      && b.uid.key == key
      && (MarksAt(cfg.kind, ws, es, m, b.uid) ==> b.status.reason != "")
      && (!MarksAt(cfg.kind, ws, es, m, b.uid) ==>
            b.status.reason == if a.Some? && a.value.uid == b.uid then a.value.status.reason else "")
  {
    hide Next, Overwrites;
    KeyInv(cfg, ws, es, m, key);
    KeyInv(cfg, ws, es, m + 1, key);
    RunStatus(cfg, ws, es, m, key);
    var l := ws[m + 1].locals[key];
    assert VersionOk(cfg.kind, key, ws[m + 1].shared, |l.versions| - 1, Last(l.versions).value);
  }

  // A stored object has a failure reason exactly when a failure write for it was committed
  // before: nothing else sets it, and nothing, a later success included, clears it.
  lemma {:induction false} ReasonExactly(cfg: Config, ws: seq<World>, es: seq<Event>, i: nat, u: Uid)
    requires IsRun(cfg, ws, es) && i < |ws| && u.key in ws[0].locals && IsStored(ws[i], u)
    ensures StoredAt(ws[i], u.key).value.status.reason != "" <==>
            exists m: nat | m < i :: MarksAt(cfg.kind, ws, es, m, u)
  {
    hide Next, Inv, Overwrites;
    KeyInv(cfg, ws, es, i, u.key);
    if i > 0 {
      ReasonStep(cfg, ws, es, i - 1, u.key);
      if IsStored(ws[i - 1], u) {
        ReasonExactly(cfg, ws, es, i - 1, u);
      } else {
        forall m: nat | m < i ensures !MarksAt(cfg.kind, ws, es, m, u) {
          NotMarkedBefore(cfg, ws, es, m, i, u);
        }
      }
    }
  }

  lemma NotMarkedBefore(cfg: Config, ws: seq<World>, es: seq<Event>, m: nat, i: nat, u: Uid)
    requires IsRun(cfg, ws, es) && m < i < |ws| && u.key in ws[0].locals
    requires IsStored(ws[i], u) && !IsStored(ws[i - 1], u)
    ensures !MarksAt(cfg.kind, ws, es, m, u)
  {
    hide Next, Inv, Overwrites;
    RunStatus(cfg, ws, es, m, u.key);
    if MarksAt(cfg.kind, ws, es, m, u) {
      StoredThroughout(cfg, ws, es, m, i, u);
    }
  }

  // ---- The phase ----

  // What a phase says about the resource: the lifecycle states it may be stored for.
  ghost predicate Says(kind: Kind, phase: Phase, life: Life) {
    match phase
    case Provisioning => kind == Instance && (life == ProvisioningState || life == StartingState)
    case Running => kind == Instance && life == RunningState
    case Terminating => kind == Instance && life == TerminatingState
    case Terminated => kind == Instance && life == TerminatedState
    case Creating => kind == Policy && life == ProvisioningState
    case Active => kind == Policy && life == AvailableState
    case Deleting => kind == Policy && life == TerminatingState
    case Deleted => kind == Policy && life == TerminatedState
    case Failed => !Named(kind, life)
    case _ => false
  }

  // The phase chosen for a lifecycle state is the one phase that says it, and phases are
  // ranked as the states they stand for are ordered.
  lemma PhaseSays(kind: Kind, phase: Phase, life: Life)
    ensures Says(kind, phase, life) <==> PhaseOf(kind, life) == phase
    ensures PhaseOf(kind, life) == Failed <==> !Named(kind, life)
    ensures Rank(PhaseOf(kind, life)) == Stage(kind, life)
    ensures Named(kind, life) ==> Rank(PhaseOf(kind, life)) == Order(life)
  {
  }

  // A step makes an object Failed exactly when it commits a failure write, or a sync of a
  // lifecycle state that has no phase of its own.
  lemma FailsExactly(cfg: Config, ws: seq<World>, es: seq<Event>, m: nat, u: Uid)
    requires IsRun(cfg, ws, es) && m < |es| && u.key in ws[0].locals && IsStored(ws[m], u) && IsStored(ws[m + 1], u)
    requires StoredAt(ws[m], u.key).value.status.phase != Failed
    ensures u.key in ws[m].locals
    ensures var w := WorkerAt(ws[m], u.key);
      StoredAt(ws[m + 1], u.key).value.status.phase == Failed <==>
        && OverwritesAt(cfg.kind, ws, es, m, u.key) && w.mem.uid == u
        && (w.MarkingFailed? || (w.Syncing? && !Named(cfg.kind, w.life)))
  {
    hide Next, Overwrites, Inv;
    if WorkerAt(ws[m], u.key).Syncing? {
      PhaseSays(cfg.kind, Failed, WorkerAt(ws[m], u.key).life);
    }
    RunStatus(cfg, ws, es, m, u.key);
  }

  // Every phase the reconcilers write once there is an ID.
  ghost function Written(kind: Kind): set<Phase> {
    match kind
    case Instance => {Provisioning, Running, Terminating, Terminated, Failed}
    case Policy => {Creating, Active, Deleting, Deleted, Failed}
  }

  lemma {:induction false} NamedPhases(cfg: Config, ws: seq<World>, es: seq<Event>, i: nat, key: string)
    requires IsRun(cfg, ws, es) && i < |ws| && key in ws[0].locals
    requires StoredAt(ws[i], key).Some? && StoredAt(ws[i], key).value.status.id != ""
    ensures StoredAt(ws[i], key).value.status.phase in Written(cfg.kind)
  {
    hide Next, Inv, Written;
    KeyInv(cfg, ws, es, i, key);
    if i > 0 {
      KeyInv(cfg, ws, es, i - 1, key);
      RunStatus(cfg, ws, es, i - 1, key);
      if OverwritesAt(cfg.kind, ws, es, i - 1, key) {
        SentNamed(cfg.kind, key, ws[i - 1].locals[key], ws[i - 1].shared);
      } else {
        NamedPhases(cfg, ws, es, i - 1, key);
      }
    }
  }

  lemma SentNamed(kind: Kind, key: string, l: Local, sh: Shared)
    requires Inv(kind, key, l, sh) && WritesStatus(l.worker)
    ensures var s := Sent(kind, l.worker).status; s.id != "" ==> s.phase in Written(kind)
  {
  }
}
