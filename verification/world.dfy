// All keys together: one controller, one cloud, and the runs they can take.
module Worlds {
  import opened Resources
  import opened Machine
  import opened Invariants
  import opened Preservation
  import opened PreservationWrites

  datatype World = World(locals: map<string, Local>, shared: Shared)

  datatype Event = Event(key: string, lab: Label)

  const NEW_LOCAL := Local([None], 0, Idle, false, false, false, map[])

  ghost predicate Initial(w: World) {
    w.shared.cloud == map[] && w.shared.lost == {} && forall k | k in w.locals :: w.locals[k] == NEW_LOCAL
  }

  ghost predicate CanStep(cfg: Config, w: World, e: Event) {
    e.key in w.locals && Shape(w.locals[e.key]) && Enabled(cfg, e.key, w.locals[e.key], w.shared, e.lab)
  }

  ghost function After(cfg: Config, w: World, e: Event): World
    requires CanStep(cfg, w, e)
  {
    var (l, sh) := Next(cfg, e.key, w.locals[e.key], w.shared, e.lab);
    World(w.locals[e.key := l], sh)
  }

  ghost predicate Steps(cfg: Config, w: World, e: Event, w': World) {
    CanStep(cfg, w, e) && w' == After(cfg, w, e)
  }

  ghost predicate IsRun(cfg: Config, ws: seq<World>, es: seq<Event>) {
    && |ws| == |es| + 1
    && Initial(ws[0])
    && forall i | 0 <= i < |es| :: Steps(cfg, ws[i], es[i], ws[i + 1])
  }

  // ---- One key's steps leave the other keys alone ----

  ghost predicate Foreign(key: string, sh: Shared, sh': Shared) {
    && sh.clock <= sh'.clock
    && "" !in sh'.cloud
    && (forall id | id in sh.cloud :: id in sh'.cloud && sh'.cloud[id].owner == sh.cloud[id].owner)
    && (forall id | id in sh'.cloud && sh'.cloud[id].owner.key != key ::
        id in sh.cloud && sh'.cloud[id] == sh.cloud[id])
    && (forall id | id in sh'.lost :: id in sh'.cloud && (id in sh.lost || sh'.cloud[id].owner.key == key))
    && sh.lost <= sh'.lost
  }

  ghost predicate Housed(key: string, l: Local, sh: Shared) {
    && "" !in sh.cloud && (forall id | id in sh.lost :: id in sh.cloud)
    && (l.worker.Launching? ==> l.worker.mem.uid.key == key)
    && (l.worker.Destroying? ==> Owned(key, sh, l.worker.mem.status.id))
    && (l.worker.Recording? ==> Owned(key, sh, l.worker.id))
  }

  lemma CallForeign(cfg: Config, key: string, l: Local, sh: Shared, lab: Label)
    requires Shape(l) && Housed(key, l, sh) && Enabled(cfg, key, l, sh, lab)
    requires lab.CallLaunch? || lab.CallTerminate? || lab.CloudMove?
    ensures Foreign(key, sh, Next(cfg, key, l, sh, lab).1)
  {
    if lab.CallLaunch? {
      match lab.launch case LaunchOk => case LaunchHidden => case LaunchError =>
    }
  }

  lemma StepForeign(cfg: Config, key: string, l: Local, sh: Shared, lab: Label)
    requires Shape(l) && Housed(key, l, sh) && Enabled(cfg, key, l, sh, lab)
    ensures Foreign(key, sh, Next(cfg, key, l, sh, lab).1)
  {
    if lab.CallLaunch? || lab.CallTerminate? || lab.CloudMove? {
      CallForeign(cfg, key, l, sh, lab);
    } else {
      var sh' := Next(cfg, key, l, sh, lab).1;
      assert sh'.cloud == sh.cloud && sh.clock <= sh'.clock
             && (sh'.lost == sh.lost || sh'.lost == sh.lost + Held(l.worker));
    }
  }

  lemma WorkerHoused(kind: Kind, key: string, l: Local, sh: Shared)
    requires Inv(kind, key, l, sh)
    ensures Housed(key, l, sh)
  {
    if l.worker.Recording? || l.worker.Launching? || l.worker.Destroying? {
      var o := l.worker.mem;
      var i :| 0 <= i < |l.versions| && l.versions[i] == Some(o);
      assert VersionOk(kind, key, sh, i, o);
    }
  }

  lemma ForeignKeeps(kind: Kind, key: string, other: string, l: Local, sh: Shared, sh': Shared)
    requires Inv(kind, key, l, sh) && Foreign(other, sh, sh') && key != other
    ensures Inv(kind, key, l, sh')
  {
    var vs := l.versions;
    forall i | 0 <= i < |vs| && vs[i].Some? ensures VersionOk(kind, key, sh', i, vs[i].value) {
      assert VersionOk(kind, key, sh, i, vs[i].value);
    }
    forall id | id in sh'.lost ensures Absent(vs, id) {
      forall i | 0 <= i < |vs| && vs[i].Some? ensures vs[i].value.status.id != id {
        assert VersionOk(kind, key, sh, i, vs[i].value);
        assert id in sh.lost ==> Absent(vs, id);
      }
    }
    assert Facts(kind, key, vs, sh');
    ForeignWorker(kind, key, other, vs, l.worker, sh, sh');
    forall id | Owned(key, sh', id) ensures Accounted(kind, Last(vs), l.worker, sh', id) {
      assert Owned(key, sh, id);
      assert Accounted(kind, Last(vs), l.worker, sh, id);
    }
  }

  lemma ForeignWorker(kind: Kind, key: string, other: string, vs: Versions, w: Worker, sh: Shared, sh': Shared)
    requires History(kind, key, vs, sh) && WorkerOk(kind, vs, w, sh)
    requires Foreign(other, sh, sh') && key != other
    ensures WorkerOk(kind, vs, w, sh')
  {
    if w.Recording? || w.Unfinalizing? {
      var i :| 0 <= i < |vs| && vs[i] == Some(w.mem);
      assert VersionOk(kind, key, sh, i, w.mem);
    }
  }

  // ---- The invariant holds on every run ----

  ghost predicate WorldInv(kind: Kind, w: World) {
    && (forall k | k in w.locals :: Inv(kind, k, w.locals[k], w.shared))
    && (forall id | id in w.shared.cloud :: w.shared.cloud[id].owner.key in w.locals)
  }

  lemma InitialInv(kind: Kind, w: World)
    requires Initial(w)
    ensures WorldInv(kind, w)
  {
  }

  lemma WorldStepKeeps(cfg: Config, w: World, e: Event)
    requires WorldInv(cfg.kind, w) && CanStep(cfg, w, e)
    ensures WorldInv(cfg.kind, After(cfg, w, e))
    ensures Foreign(e.key, w.shared, After(cfg, w, e).shared)
  {
    var l, sh := w.locals[e.key], w.shared;
    StepKeeps(cfg, e.key, l, sh, e.lab);
    WorkerHoused(cfg.kind, e.key, l, sh);
    StepForeign(cfg, e.key, l, sh, e.lab);
    var w' := After(cfg, w, e);
    forall k | k in w'.locals ensures Inv(cfg.kind, k, w'.locals[k], w'.shared) {
      if k != e.key {
        ForeignKeeps(cfg.kind, k, e.key, w.locals[k], sh, w'.shared);
      }
    }
  }

  lemma {:induction false} RunInv(cfg: Config, ws: seq<World>, es: seq<Event>, i: nat)
    requires IsRun(cfg, ws, es) && i < |ws|
    ensures WorldInv(cfg.kind, ws[i])
    ensures ws[i].locals.Keys == ws[0].locals.Keys
  {
    if i == 0 {
      InitialInv(cfg.kind, ws[0]);
    } else {
      RunInv(cfg, ws, es, i - 1);
      assert Steps(cfg, ws[i - 1], es[i - 1], ws[i]);
      WorldStepKeeps(cfg, ws[i - 1], es[i - 1]);
    }
  }
}
