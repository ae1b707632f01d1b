// The reconcile protocol as a labelled transition system for one key.
//
// Both reconcilers run this machine; Config says which one. Every remote call is
// one step, and between any two steps the user, the informer cache, the cloud and
// crashes may move. All nondeterminism is in the label, so Next is a function.
module Machine {
  import opened Resources

  // request is the creation request a spec is turned into.
  datatype Config = Config(kind: Kind, request: Spec -> Request)

  // ---- What differs between the two reconcilers ----

  function Finalizer(kind: Kind): string {
    match kind
    case Instance => "compute.nvcne-demo.io/finalizer"
    case Policy => "compute.nvcne-demo.io/security-policy-finalizer"
  }

  const SHORT_DELAY: nat := 30
  const LONG_DELAY: nat := 300

  // The phase written by the fence, before the cloud is asked to create anything.
  function FencePhase(kind: Kind): Phase {
    if kind == Instance then Provisioning else Creating
  }

  // The phase written together with a fresh ID.
  function CreatedPhase(kind: Kind): Phase {
    if kind == Instance then Provisioning else Active
  }

  function CreatedDelay(kind: Kind): nat {
    if kind == Instance then SHORT_DELAY else LONG_DELAY
  }

  function PhaseOf(kind: Kind, life: Life): Phase {
    match kind
    case Instance =>
      (match life
       case RunningState => Running
       case ProvisioningState => Provisioning
       case StartingState => Provisioning
       case TerminatingState => Terminating
       case TerminatedState => Terminated
       case _ => Failed)
    case Policy =>
      (match life
       case AvailableState => Active
       case ProvisioningState => Creating
       case TerminatingState => Deleting
       case TerminatedState => Deleted
       case _ => Failed)
  }

  function SyncDelay(kind: Kind, life: Life): nat {
    match kind
    case Instance => if life == RunningState then LONG_DELAY else SHORT_DELAY
    case Policy => if life == ProvisioningState then SHORT_DELAY else LONG_DELAY
  }

  // ---- State ----

  // What a reconcile hands back to the controller runtime.
  datatype Result = Stop | Retry | RequeueAfter(delay: nat)

  // The in-flight reconcile: which remote call comes next, and the object it holds.
  // mem is always a copy as last read from, or returned by, the server. cause is the
  // object whose launch failed; it is None when no cloud client could be made.
  datatype Worker =
    | Idle
    | Fetching
    | AddingFinalizer(mem: Obj)
    | NeedClient(mem: Obj)
    | Fencing(mem: Obj)
    | Launching(mem: Obj)
    | Recording(mem: Obj, id: string)
    | Refetching(cause: Option<Obj>, reason: string)
    | MarkingFailed(mem: Obj, cause: Option<Obj>, reason: string)
    | Polling(mem: Obj)
    | Syncing(mem: Obj, life: Life)
    | Destroying(mem: Obj)
    | Unfinalizing(mem: Obj)
    | Returned(result: Result)

  // Bookkeeping per object life; nothing in the protocol reads it.
  //   launches: creation calls issued; edits: spec edits; setbacks: reconciles that
  //   launched and then neither recorded the ID nor the failure;
  //   attempted: generations a creation call was issued for.
  datatype Account = Account(launches: nat, edits: nat, setbacks: nat, attempted: set<nat>)

  // versions: every state the server ever held under the key, newest last (None: no
  // object). view: the version the informer cache shows.
  datatype Local = Local(
    versions: seq<Option<Obj>>, view: nat, worker: Worker,
    queued: bool, timer: bool, retry: bool,
    accounts: map<Uid, Account>)

  // A cloud resource. owner, generation and request record the call that made it;
  // high is the furthest lifecycle stage it has shown; accepted says whether a
  // terminate call for it took effect.
  datatype Resource = Resource(
    owner: Uid, generation: nat, request: Request,
    life: Life, high: nat, accepted: bool)

  // clock: next resourceVersion. lost: IDs whose recording never reached the server.
  datatype Shared = Shared(clock: nat, cloud: map<string, Resource>, lost: set<string>)

  predicate Shape(l: Local) {
    l.versions != [] && l.view < |l.versions|
  }

  // What the server holds now.
  function Last(vs: seq<Option<Obj>>): Option<Obj> {
    if vs == [] then None else vs[|vs| - 1]
  }

  function AccountOf(accounts: map<Uid, Account>, u: Uid): Account {
    if u in accounts then accounts[u] else Account(0, 0, 0, {})
  }

  // How far along a phase is; Failed and the unset phases have no place in the order.
  function Rank(phase: Phase): nat {
    match phase
    case Running => 1
    case Active => 1
    case Terminating => 2
    case Deleting => 2
    case Terminated => 3
    case Deleted => 3
    case _ => 0
  }

  // The order in which a resource goes through its lifecycle states.
  function Order(life: Life): nat {
    match life
    case ProvisioningState => 0
    case StartingState => 0
    case RunningState => 1
    case AvailableState => 1
    case TerminatingState => 2
    case TerminatedState => 3
    case OtherState => 0
  }

  // The states a resource of this kind goes through; all others are off that way.
  predicate Named(kind: Kind, life: Life) {
    match life
    case ProvisioningState => true
    case StartingState => kind == Instance
    case RunningState => kind == Instance
    case AvailableState => kind == Policy
    case TerminatingState => true
    case TerminatedState => true
    case OtherState => false
  }

  function Stage(kind: Kind, life: Life): nat {
    if Named(kind, life) then Order(life) else 0
  }

  predicate SpecOk(kind: Kind, spec: Spec) {
    if kind == Instance then spec.ForInstance? else spec.ForPolicy?
  }

  function Max(a: nat, b: nat): nat {
    if a < b then b else a
  }

  // ---- API server ----

  // A write is refused unless it was made from the version the server holds.
  predicate Conflict(stored: Option<Obj>, sent: Obj) {
    stored.None? || stored.value.rv != sent.rv || stored.value.uid != sent.uid
  }

  // PUT on the main resource: status is ignored; an unchanged object keeps its
  // version; a deleting object without finalizers disappears.
  function Update(stored: Obj, sent: Obj, rv: nat): Option<Obj> {
    var next := stored.(finalizers := sent.finalizers, spec := sent.spec,
                        generation := if sent.spec == stored.spec then stored.generation else stored.generation + 1);
    if next == stored then Some(stored)
    else if next.deleting && next.finalizers == {} then None
    else Some(next.(rv := rv))
  }

  // PUT on the status subresource: only status is taken.
  function UpdateStatus(stored: Obj, sent: Obj, rv: nat): Option<Obj> {
    if sent.status == stored.status then Some(stored) else Some(stored.(status := sent.status, rv := rv))
  }

  // Store a new state, unless nothing changed.
  function Push(l: Local, v: Option<Obj>): Local {
    if v == Last(l.versions) then l else l.(versions := l.versions + [v])
  }

  function Tick(l: Local, sh: Shared, v: Option<Obj>): Shared {
    if v == Last(l.versions) then sh else sh.(clock := sh.clock + 1)
  }

  // ---- The reconciler between two calls ----

  // Where a reconcile goes after its first Get.
  function Dispatch(kind: Kind, got: Option<Obj>): Worker {
    if got.None? then Returned(Stop)
    else
      var o := got.value;
      if o.deleting then
        if Finalizer(kind) !in o.finalizers then Returned(Stop)
        else if o.status.id != "" then Destroying(o)
        else Unfinalizing(o)
      else if Finalizer(kind) !in o.finalizers then AddingFinalizer(o)
      else if FailedForGeneration(o) then Returned(Stop)
      else NeedClient(o)
  }

  function WithClient(o: Obj): Worker {
    if o.status.id != "" then Polling(o) else Fencing(o)
  }

  predicate Writing(w: Worker) {
    w.AddingFinalizer? || w.Fencing? || w.Recording? || w.MarkingFailed? || w.Syncing? || w.Unfinalizing?
  }

  predicate WritesStatus(w: Worker) {
    w.Fencing? || w.Recording? || w.MarkingFailed? || w.Syncing?
  }

  // The object a writing reconcile sends.
  function Sent(kind: Kind, w: Worker): Obj
    requires Writing(w)
  {
    var s := w.mem.status;
    match w
    case AddingFinalizer(o) => o.(finalizers := o.finalizers + {Finalizer(kind)})
    case Fencing(o) => o.(status := s.(phase := FencePhase(kind)))
    case Recording(o, id) => o.(status := s.(id := id, phase := CreatedPhase(kind), observed := o.generation))
    case MarkingFailed(o, _, why) => o.(status := s.(phase := Failed, reason := why, observed := o.generation))
    case Syncing(o, life) =>
      o.(status := s.(phase := PhaseOf(kind, life),
                      observed := if PhaseOf(kind, life) == FencePhase(kind) then s.observed else o.generation))
    case Unfinalizing(o) => o.(finalizers := o.finalizers - {Finalizer(kind)})
  }

  // What the server holds after a write that did not conflict.
  function Committed(kind: Kind, w: Worker, stored: Obj, rv: nat): Option<Obj>
    requires Writing(w)
  {
    if WritesStatus(w) then UpdateStatus(stored, Sent(kind, w), rv) else Update(stored, Sent(kind, w), rv)
  }

  // Where a reconcile goes once its write is acknowledged with the server's copy.
  function AfterWrite(kind: Kind, w: Worker, copy: Option<Obj>): Worker
    requires Writing(w)
  {
    match w
    case Fencing(_) => if copy.Some? then Launching(copy.value) else Returned(Retry)
    case Recording(_, _) => Returned(RequeueAfter(CreatedDelay(kind)))
    case Syncing(_, life) => Returned(RequeueAfter(SyncDelay(kind, life)))
    case _ => Returned(Stop)
  }

  // The object a reconcile has launched for and not yet settled the outcome of.
  function Unsettled(w: Worker): Option<Obj> {
    match w
    case Recording(o, _) => Some(o)
    case Refetching(c, _) => c
    case MarkingFailed(_, c, _) => c
    case _ => None
  }

  // ---- Labels ----

  datatype WriteOutcome = Reply | NoReply | Rejected        // NoReply: took effect, caller sees an error
  datatype LaunchOutcome = LaunchOk | LaunchHidden | LaunchError  // LaunchHidden: created, caller sees an error
  datatype TerminateOutcome = TermOk | TermHidden | TermError

  datatype Label =
    | UserCreate(spec: Spec, finalizers: set<string>)
    | UserEdit(spec: Spec)
    | UserMeta(finalizers: set<string>)     // any other metadata write, by anyone
    | UserDelete
    | CacheMove(pos: nat)
    | CloudMove(id: string, life: Life)
    | TimerFires
    | RetryFires
    | Crash(pos: nat)
    | Dequeue
    | Finish
    | CallGet(ok: bool)
    | ClientReady
    | ClientFails(reason: string)
    | CallWrite(outcome: WriteOutcome)
    | CallLaunch(launch: LaunchOutcome, id: string, life: Life, reason: string)
    | CallPoll(ok: bool)
    | CallTerminate(term: TerminateOutcome)

  predicate Enabled(cfg: Config, key: string, l: Local, sh: Shared, lab: Label)
    requires Shape(l)
  {
    var st := Last(l.versions);
    match lab
    case UserCreate(spec, _) => st.None? && SpecOk(cfg.kind, spec)
    case UserEdit(spec) => st.Some? && spec != st.value.spec && SpecOk(cfg.kind, spec)
    case UserMeta(f) =>
      st.Some?
      && (Finalizer(cfg.kind) in f <==> Finalizer(cfg.kind) in st.value.finalizers)
      && (st.value.deleting ==> f <= st.value.finalizers)
    case UserDelete => st.Some? && !st.value.deleting
    case CacheMove(p) => p < |l.versions|
    case CloudMove(id, _) => id in sh.cloud && sh.cloud[id].owner.key == key
    case TimerFires => l.timer
    case RetryFires => l.retry
    case Crash(p) => p < |l.versions|
    case Dequeue => l.queued && l.worker.Idle?
    case Finish => l.worker.Returned?
    case CallGet(_) => l.worker.Fetching? || l.worker.Refetching?
    case ClientReady => l.worker.NeedClient?
    case ClientFails(why) => why != "" && (l.worker.NeedClient? || l.worker.Destroying?)
    case CallWrite(_) => Writing(l.worker)
    case CallLaunch(out, id, _, why) => l.worker.Launching? && id != "" && id !in sh.cloud && why != ""
    case CallPoll(ok) => l.worker.Polling? && l.worker.mem.status.id in sh.cloud
    case CallTerminate(_) => l.worker.Destroying? && l.worker.mem.status.id in sh.cloud
  }

  // A launch whose outcome is given up on: the caller learns neither ID nor failure.
  function Setback(l: Local): map<Uid, Account> {
    var p := Unsettled(l.worker);
    if p.None? then l.accounts
    else
      var a := AccountOf(l.accounts, p.value.uid);
      l.accounts[p.value.uid := a.(setbacks := a.setbacks + 1)]
  }

  // The ID a reconcile holds and has not yet written anywhere.
  function Held(w: Worker): set<string> {
    if w.Recording? then {w.id} else {}
  }

  // ---- Steps ----

  function NextUser(cfg: Config, key: string, l: Local, sh: Shared, lab: Label): (Local, Shared)
    requires Shape(l) && Enabled(cfg, key, l, sh, lab)
    requires lab.UserCreate? || lab.UserEdit? || lab.UserMeta? || lab.UserDelete?
  {
    var st := Last(l.versions);
    match lab
    case UserCreate(spec, f) =>
      var o := Obj(Uid(key, |l.versions|), sh.clock, 1, false, f, spec, EMPTY_STATUS);
      (Push(l, Some(o)), Tick(l, sh, Some(o)))
    case UserEdit(spec) =>
      var o := st.value.(spec := spec, generation := st.value.generation + 1, rv := sh.clock);
      var a := AccountOf(l.accounts, o.uid);
      (Push(l, Some(o)).(accounts := l.accounts[o.uid := a.(edits := a.edits + 1)]), Tick(l, sh, Some(o)))
    case UserMeta(f) =>
      var v := if st.value.deleting && f == {} then None else Some(st.value.(finalizers := f, rv := sh.clock));
      (Push(l, v), Tick(l, sh, v))
    case UserDelete =>
      var v := if st.value.finalizers == {} then None
               else Some(st.value.(deleting := true, generation := st.value.generation + 1, rv := sh.clock));
      (Push(l, v), Tick(l, sh, v))
  }

  function NextWrite(cfg: Config, l: Local, sh: Shared, out: WriteOutcome): (Local, Shared)
    requires Shape(l) && Writing(l.worker)
  {
    var w := l.worker;
    if out.Rejected? || Conflict(Last(l.versions), Sent(cfg.kind, w)) then
      (l.(worker := Returned(Retry), accounts := Setback(l)), sh.(lost := sh.lost + Held(w)))
    else
      var v := Committed(cfg.kind, w, Last(l.versions).value, sh.clock);
      (Push(l, v).(worker := if out.Reply? then AfterWrite(cfg.kind, w, v) else Returned(Retry)), Tick(l, sh, v))
  }

  function NextLaunch(cfg: Config, l: Local, sh: Shared, lab: Label): (Local, Shared)
    requires l.worker.Launching? && lab.CallLaunch?
  {
    var o := l.worker.mem;
    var a := AccountOf(l.accounts, o.uid);
    var a' := a.(launches := a.launches + 1, attempted := a.attempted + {o.generation});
    var l' := l.(accounts := l.accounts[o.uid := a']);
    var r := Resource(o.uid, o.generation, cfg.request(o.spec), lab.life, Stage(cfg.kind, lab.life), false);
    var made := sh.cloud[lab.id := r];
    match lab.launch
    case LaunchOk => (l'.(worker := Recording(o, lab.id)), sh.(cloud := made))
    case LaunchHidden =>
      (l'.(worker := Refetching(Some(o), lab.reason)), sh.(cloud := made, lost := sh.lost + {lab.id}))
    case LaunchError => (l'.(worker := Refetching(Some(o), lab.reason)), sh)
  }

  function NextGet(cfg: Config, l: Local, ok: bool): Local
    requires Shape(l) && (l.worker.Fetching? || l.worker.Refetching?)
  {
    var got := l.versions[l.view];
    if l.worker.Fetching? then
      l.(worker := if ok then Dispatch(cfg.kind, got) else Returned(Retry))
    else if ok && got.Some? then
      l.(worker := MarkingFailed(got.value, l.worker.cause, l.worker.reason))
    else
      l.(worker := Returned(Retry), accounts := Setback(l))
  }

  function NextTerminate(l: Local, sh: Shared, out: TerminateOutcome): (Local, Shared)
    requires l.worker.Destroying? && l.worker.mem.status.id in sh.cloud
  {
    var id := l.worker.mem.status.id;
    var sh' := if out.TermError? then sh else sh.(cloud := sh.cloud[id := sh.cloud[id].(accepted := true)]);
    (l.(worker := if out.TermOk? then Unfinalizing(l.worker.mem) else Returned(Retry)), sh')
  }

  function NextFinish(l: Local): Local
    requires l.worker.Returned?
  {
    match l.worker.result
    case Stop => l.(worker := Idle)
    case Retry => l.(worker := Idle, retry := true)
    case RequeueAfter(_) => l.(worker := Idle, timer := true)
  }

  function NextCloudMove(kind: Kind, sh: Shared, id: string, life: Life): Shared
    requires id in sh.cloud
  {
    sh.(cloud := sh.cloud[id := sh.cloud[id].(life := life, high := Max(sh.cloud[id].high, Stage(kind, life)))])
  }

  function Next(cfg: Config, key: string, l: Local, sh: Shared, lab: Label): (Local, Shared)
    requires Shape(l) && Enabled(cfg, key, l, sh, lab)
  {
    match lab
    case UserCreate(_, _) => NextUser(cfg, key, l, sh, lab)
    case UserEdit(_) => NextUser(cfg, key, l, sh, lab)
    case UserMeta(_) => NextUser(cfg, key, l, sh, lab)
    case UserDelete => NextUser(cfg, key, l, sh, lab)
    case CacheMove(p) => (l.(view := p, queued := true), sh)
    case CloudMove(id, life) => (l, NextCloudMove(cfg.kind, sh, id, life))
    case TimerFires => (l.(timer := false, queued := true), sh)
    case RetryFires => (l.(retry := false, queued := true), sh)
    case Crash(p) =>
      (l.(view := p, worker := Idle, queued := true, timer := false, retry := false, accounts := Setback(l)),
       sh.(lost := sh.lost + Held(l.worker)))
    case Dequeue => (l.(queued := false, worker := Fetching), sh)
    case Finish => (NextFinish(l), sh)
    case CallGet(ok) => (NextGet(cfg, l, ok), sh)
    case ClientReady => (l.(worker := WithClient(l.worker.mem)), sh)
    case ClientFails(why) =>
      (l.(worker := if l.worker.NeedClient? then Refetching(None, why) else Returned(Retry)), sh)
    case CallWrite(out) => NextWrite(cfg, l, sh, out)
    case CallLaunch(_, _, _, _) => NextLaunch(cfg, l, sh, lab)
    case CallPoll(ok) =>
      (l.(worker := if ok then Syncing(l.worker.mem, sh.cloud[l.worker.mem.status.id].life) else Returned(Retry)), sh)
    case CallTerminate(out) => NextTerminate(l, sh, out)
  }
}
