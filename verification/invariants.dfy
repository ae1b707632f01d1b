// What every reachable state of one key satisfies.
module Invariants {
  import opened Resources
  import opened Machine

  type Versions = seq<Option<Obj>>
  type Accounts = map<Uid, Account>

  // ---- History: the versions the server held ----

  ghost predicate Owned(key: string, sh: Shared, id: string) {
    id in sh.cloud && sh.cloud[id].owner.key == key
  }

  ghost predicate NeedsId(phase: Phase) {
    phase in {Running, Terminating, Terminated, Active, Deleting, Deleted}
  }

  ghost predicate VersionOk(kind: Kind, key: string, sh: Shared, i: nat, v: Obj) {
    && v.uid.key == key && v.uid.n <= i && v.rv < sh.clock
    && 1 <= v.generation && v.status.observed <= v.generation && SpecOk(kind, v.spec)
    && (v.status.id != "" ==>
          && v.status.id in sh.cloud && sh.cloud[v.status.id].owner == v.uid
          && (Finalizer(kind) in v.finalizers || sh.cloud[v.status.id].accepted))
    && (NeedsId(v.status.phase) ==> v.status.id != "")
  }

  // How two versions of one object, older first, are related.
  ghost predicate Evolves(a: Obj, b: Obj) {
    && a.generation <= b.generation
    && (a.generation == b.generation ==> a.spec == b.spec)
    && (a.deleting ==> b.deleting)
    && a.status.observed <= b.status.observed
    && (a.status.id != "" ==> b.status.id == a.status.id)
    && (a.status.reason != "" ==> b.status.reason != "")
    && (FailedForGeneration(a) && a.generation == b.generation ==>
          b.status == a.status.(reason := b.status.reason))
  }

  ghost predicate Follows(a: Option<Obj>, b: Option<Obj>) {
    a.Some? && b.Some? ==>
      && a.value.rv < b.value.rv
      && (a.value.uid == b.value.uid ==> Evolves(a.value, b.value))
  }

  ghost predicate History(kind: Kind, key: string, vs: Versions, sh: Shared) {
    && vs != []
    && (forall i | 0 <= i < |vs| && vs[i].Some? :: VersionOk(kind, key, sh, i, vs[i].value))
    && (forall i, j | 0 <= i < j < |vs| :: Follows(vs[i], vs[j]))
  }

  // No version carries this ID.
  ghost predicate Absent(vs: Versions, id: string) {
    forall i | 0 <= i < |vs| && vs[i].Some? :: vs[i].value.status.id != id
  }

  // An ID that was lost never was recorded.
  ghost predicate LostUnrecorded(vs: Versions, sh: Shared) {
    forall id | id in sh.lost :: Absent(vs, id)
  }

  // The operator terminates only what belongs to a deleted or vanished object.
  ghost predicate TerminatedDeleted(st: Option<Obj>, sh: Shared) {
    st.Some? && st.value.status.id in sh.cloud && sh.cloud[st.value.status.id].accepted ==> st.value.deleting
  }

  // ---- The in-flight reconcile ----

  ghost predicate Known(vs: Versions, o: Obj) {
    Some(o) in vs
  }

  // The state of an object that justifies creating a cloud resource for it.
  ghost predicate Launchable(kind: Kind, o: Obj) {
    !o.deleting && Finalizer(kind) in o.finalizers && o.status.id == "" && !FailedForGeneration(o)
  }

  ghost predicate Fenced(kind: Kind, vs: Versions, o: Obj) {
    Known(vs, o) && Launchable(kind, o) && o.status.phase == FencePhase(kind)
  }

  ghost predicate WorkerOk(kind: Kind, vs: Versions, w: Worker, sh: Shared) {
    match w
    case Idle => true
    case Fetching => true
    case Returned(_) => true
    case AddingFinalizer(o) => Known(vs, o) && !o.deleting && Finalizer(kind) !in o.finalizers
    case NeedClient(o) => Known(vs, o) && !o.deleting && Finalizer(kind) in o.finalizers && !FailedForGeneration(o)
    case Fencing(o) => Known(vs, o) && Launchable(kind, o)
    case Launching(o) => Fenced(kind, vs, o)
    case Recording(o, id) =>
      && Fenced(kind, vs, o)
      && id != "" && id in sh.cloud && sh.cloud[id].owner == o.uid && !sh.cloud[id].accepted
      && id !in sh.lost && Absent(vs, id)
    case Refetching(c, why) => why != "" && (c.Some? ==> Fenced(kind, vs, c.value))
    case MarkingFailed(o, c, why) => why != "" && Known(vs, o) && (c.Some? ==> Fenced(kind, vs, c.value))
    case Polling(o) => Known(vs, o) && !o.deleting && o.status.id != "" && !FailedForGeneration(o)
    case Syncing(o, _) => Known(vs, o) && !o.deleting && o.status.id != "" && !FailedForGeneration(o)
    case Destroying(o) => Known(vs, o) && o.deleting && Finalizer(kind) in o.finalizers && o.status.id != ""
    case Unfinalizing(o) =>
      && Known(vs, o) && o.deleting && Finalizer(kind) in o.finalizers
      && (o.status.id != "" ==> o.status.id in sh.cloud && sh.cloud[o.status.id].accepted)
  }

  // The object a creation call is about to be or was issued for, outcome unsettled.
  ghost function InLaunch(w: Worker): Option<Obj> {
    if w.Launching? then Some(w.mem) else Unsettled(w)
  }

  ghost predicate AtMost(gens: set<nat>, g: nat) {
    forall x | x in gens :: x <= g
  }

  // Only this worker writes status, so from fence to outcome the server's status is
  // still the fenced one, or belongs to a newborn object under the same key.
  ghost predicate FenceHolds(st: Option<Obj>, w: Worker, accounts: Accounts) {
    var m := InLaunch(w);
    m.Some? && st.Some? ==>
      if st.value.uid == m.value.uid
      then st.value.status == m.value.status && m.value.generation <= st.value.generation
      else st.value.status == EMPTY_STATUS && AccountOf(accounts, st.value.uid).attempted == {}
  }

  // ---- No cloud resource is forgotten ----

  ghost predicate Recorded(kind: Kind, st: Option<Obj>, id: string) {
    st.Some? && st.value.status.id == id && Finalizer(kind) in st.value.finalizers
  }

  ghost predicate Accounted(kind: Kind, st: Option<Obj>, w: Worker, sh: Shared, id: string)
    requires id in sh.cloud
  {
    Recorded(kind, st, id) || id in Held(w) || sh.cloud[id].accepted || id in sh.lost
  }

  ghost predicate Ledger(kind: Kind, key: string, st: Option<Obj>, w: Worker, sh: Shared) {
    forall id | Owned(key, sh, id) :: Accounted(kind, st, w, sh, id)
  }

  // ---- Launch accounting ----

  // Whether the object with this uid may still get a creation call without any edit
  // or setback happening first.
  ghost predicate Armed(st: Option<Obj>, w: Worker, u: Uid) {
    || (w.Launching? && w.mem.uid == u)
    || (&& st.Some? && st.value.uid == u && !st.value.deleting
        && st.value.status.id == "" && !FailedForGeneration(st.value)
        && !(Unsettled(w).Some? && Unsettled(w).value.uid == u))
  }

  ghost predicate WithinBudget(a: Account, armed: bool) {
    a.launches + (if armed then 1 else 0) <= 1 + a.edits + a.setbacks
  }

  ghost predicate LaunchBudget(st: Option<Obj>, w: Worker, accounts: Accounts) {
    forall u | u in accounts :: WithinBudget(accounts[u], Armed(st, w, u))
  }

  ghost predicate AccountsKnown(key: string, n: nat, accounts: Accounts) {
    forall u | u in accounts :: u.key == key && u.n < n
  }

  // Creation calls were only issued for generations the server had reached.
  ghost predicate AttemptsPast(st: Option<Obj>, w: Worker, accounts: Accounts) {
    var m := InLaunch(w);
    && (st.Some? ==> AtMost(AccountOf(accounts, st.value.uid).attempted, st.value.generation))
    && (m.Some? ==> AtMost(AccountOf(accounts, m.value.uid).attempted, m.value.generation))
    && (Unsettled(w).Some? ==>
          m.value.uid in accounts && m.value.generation in accounts[m.value.uid].attempted)
  }

  // ---- Wakeups ----

  // Nothing is left to do for this server state.
  ghost predicate Quiescent(kind: Kind, st: Option<Obj>) {
    st.Some? ==>
      if st.value.deleting then Finalizer(kind) !in st.value.finalizers else FailedForGeneration(st.value)
  }

  ghost predicate Behind(l: Local) {
    l.view + 1 < |l.versions|
  }

  ghost predicate Live(w: Worker) {
    w.AddingFinalizer? || w.NeedClient? || w.Fencing? || w.Launching? || w.Recording? || w.Refetching?
    || w.MarkingFailed? || w.Polling? || w.Syncing?
  }

  ghost predicate Awake(kind: Kind, l: Local)
    requires Shape(l)
  {
    && (l.worker.Idle? || l.worker == Returned(Stop) ==>
          l.queued || l.timer || l.retry || Behind(l) || Quiescent(kind, Last(l.versions)))
    && (Live(l.worker) ==> l.queued || (l.versions[l.view].Some? && !l.versions[l.view].value.deleting))
  }

  // ---- The whole invariant ----

  ghost predicate Facts(kind: Kind, key: string, vs: Versions, sh: Shared) {
    && History(kind, key, vs, sh)
    && LostUnrecorded(vs, sh)
    && TerminatedDeleted(Last(vs), sh)
    && "" !in sh.cloud && (forall id | id in sh.lost :: id in sh.cloud)
  }

  ghost predicate Books(key: string, vs: Versions, w: Worker, accounts: Accounts) {
    && FenceHolds(Last(vs), w, accounts)
    && LaunchBudget(Last(vs), w, accounts)
    && AccountsKnown(key, |vs|, accounts)
    && AttemptsPast(Last(vs), w, accounts)
  }

  ghost predicate Inv(kind: Kind, key: string, l: Local, sh: Shared) {
    && Shape(l)
    && Facts(kind, key, l.versions, sh)
    && WorkerOk(kind, l.versions, l.worker, sh)
    && Ledger(kind, key, Last(l.versions), l.worker, sh)
    && Books(key, l.versions, l.worker, l.accounts)
    && Awake(kind, l)
  }
}
