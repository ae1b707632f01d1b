// How many cloud resources one object can have.
module Duplicates {
  import opened Resources
  import opened Machine
  import opened Invariants
  import opened Preservation
  import opened PreservationWrites
  import opened Worlds
  import opened Safety
  import opened Launches
  import opened StatusChanges

  // A resource is terminated only after its ID was on its object.
  ghost predicate AcceptedSeen(key: string, vs: Versions, sh: Shared) {
    forall id | Owned(key, sh, id) && sh.cloud[id].accepted :: !Absent(vs, id)
  }

  // No version of u has an ID.
  ghost predicate Bare(vs: Versions, u: Uid) {
    forall i | 0 <= i < |vs| && vs[i].Some? && vs[i].value.uid == u :: vs[i].value.status.id == ""
  }

  // While a launch is under way its object has never had an ID.
  ghost predicate LaunchBare(vs: Versions, w: Worker) {
    InLaunch(w).Some? ==> Bare(vs, InLaunch(w).value.uid)
  }

  ghost predicate Single(key: string, l: Local, sh: Shared) {
    AcceptedSeen(key, l.versions, sh) && LaunchBare(l.versions, l.worker)
  }

  // ---- Every step keeps it ----

  lemma StepAccepts(cfg: Config, key: string, l: Local, sh: Shared, lab: Label, id: string)
    requires Shape(l) && Enabled(cfg, key, l, sh, lab)
    requires var sh' := Next(cfg, key, l, sh, lab).1; id in sh'.cloud && sh'.cloud[id].accepted
    ensures id in sh.cloud
    ensures Next(cfg, key, l, sh, lab).1.cloud[id].owner == sh.cloud[id].owner
    ensures sh.cloud[id].accepted || (l.worker.Destroying? && l.worker.mem.status.id == id)
  {
    match lab
    case CallLaunch(out, _, _, _) => match out { case LaunchOk => case LaunchHidden => case LaunchError => }
    case _ =>
  }

  lemma AcceptedSeenStep(cfg: Config, key: string, l: Local, sh: Shared, lab: Label)
    requires Inv(cfg.kind, key, l, sh) && Enabled(cfg, key, l, sh, lab) && AcceptedSeen(key, l.versions, sh)
    ensures var (l', sh') := Next(cfg, key, l, sh, lab); AcceptedSeen(key, l'.versions, sh')
  {
    hide Next, Facts, Books, Ledger, Awake, Absent;
    var (l', sh') := Next(cfg, key, l, sh, lab);
    StepExtends(cfg, key, l, sh, lab);
    forall id | Owned(key, sh', id) && sh'.cloud[id].accepted ensures !Absent(l'.versions, id) {
      StepAccepts(cfg, key, l, sh, lab, id);
      if sh.cloud[id].accepted {
        assert Owned(key, sh, id);
      } else {
        KnownSeen(l.versions, l.worker.mem);
      }
      SeenStays(l.versions, l'.versions, id);
    }
  }

  // A launch under way goes on for the same object, or has just been fenced.
  lemma LaunchGoesOn(cfg: Config, key: string, l: Local, sh: Shared, lab: Label)
    requires Shape(l) && Enabled(cfg, key, l, sh, lab)
    ensures var m, m' := InLaunch(l.worker), InLaunch(Next(cfg, key, l, sh, lab).0.worker);
      m'.Some? ==>
        || (m.Some? && m.value.uid == m'.value.uid && !lab.CallWrite?)
        || (l.worker.Fencing? && Overwrites(cfg.kind, l, lab))
  {
    hide Sent, Committed, Dispatch;
    if !ByWorker(lab) {
      EnvironmentKeepsWorker(cfg, key, l, sh, lab);
    } else {
      match lab
      case CallLaunch(out, _, _, _) => match out { case LaunchOk => case LaunchHidden => case LaunchError => }
      case CallGet(_) => DispatchStarts(cfg.kind, l.versions[l.view]);
      case _ =>
    }
  }

  // An object without an ID never had one.
  lemma NeverHad(kind: Kind, key: string, vs: Versions, sh: Shared)
    requires History(kind, key, vs, sh) && Last(vs).Some? && Last(vs).value.status.id == ""
    ensures Bare(vs, Last(vs).value.uid)
  {
    forall i | 0 <= i < |vs| && vs[i].Some? && vs[i].value.uid == Last(vs).value.uid
      ensures vs[i].value.status.id == ""
    {
      assert i < |vs| - 1 ==> Follows(vs[i], vs[|vs| - 1]);
    }
  }

  lemma BareGrows(vs: Versions, vs': Versions, u: Uid)
    requires vs <= vs' && |vs'| <= |vs| + 1 && Bare(vs, u)
    requires Last(vs').Some? && Last(vs').value.uid == u ==> Last(vs').value.status.id == ""
    ensures Bare(vs', u)
  {
    forall i | 0 <= i < |vs'| && vs'[i].Some? && vs'[i].value.uid == u ensures vs'[i].value.status.id == "" {
      assert i < |vs| ==> vs[i] == vs'[i];
    }
  }

  lemma LaunchBareStep(cfg: Config, key: string, l: Local, sh: Shared, lab: Label)
    requires Inv(cfg.kind, key, l, sh) && Enabled(cfg, key, l, sh, lab) && LaunchBare(l.versions, l.worker)
    ensures var (l', sh') := Next(cfg, key, l, sh, lab); LaunchBare(l'.versions, l'.worker)
  {
    hide Next, Books, Ledger, Awake, Bare, Sent;
    var l' := Next(cfg, key, l, sh, lab).0;
    StepExtends(cfg, key, l, sh, lab);
    StepStatus(cfg, key, l, sh, lab);
    LaunchGoesOn(cfg, key, l, sh, lab);
    if InLaunch(l'.worker).Some? {
      var u := InLaunch(l'.worker).value.uid;
      if l.worker.Fencing? && Overwrites(cfg.kind, l, lab) {
        FencedUid(cfg, key, l, sh, lab);
        NeverHad(cfg.kind, key, l.versions, sh);
      } else {
        LastBare(l.versions, u);
      }
      BareGrows(l.versions, l'.versions, u);
    }
  }

  lemma LastBare(vs: Versions, u: Uid)
    requires vs != [] && Bare(vs, u)
    ensures Last(vs).Some? && Last(vs).value.uid == u ==> Last(vs).value.status.id == ""
  {
  }

  lemma FencedUid(cfg: Config, key: string, l: Local, sh: Shared, lab: Label)
    requires Inv(cfg.kind, key, l, sh) && Enabled(cfg, key, l, sh, lab)
    requires l.worker.Fencing? && Overwrites(cfg.kind, l, lab)
    ensures var l' := Next(cfg, key, l, sh, lab).0;
      && l.worker.mem.status.id == "" && Sent(cfg.kind, l.worker).status.id == ""
      && (InLaunch(l'.worker).Some? ==> InLaunch(l'.worker).value.uid == l.worker.mem.uid)
  {
    hide Facts, Books, Ledger, Awake, Committed;
    CommitFromStored(cfg.kind, key, l, sh, lab.outcome);
    CommitShape(cfg.kind, l.worker, sh.clock);
  }

  lemma SingleForeign(key: string, other: string, l: Local, sh: Shared, sh': Shared)
    requires Single(key, l, sh) && Foreign(other, sh, sh') && key != other
    ensures Single(key, l, sh')
  {
    hide Absent, Bare;
    forall id | Owned(key, sh', id) && sh'.cloud[id].accepted ensures !Absent(l.versions, id) {
      assert Owned(key, sh, id);
    }
  }

  lemma {:induction false} RunSingle(cfg: Config, ws: seq<World>, es: seq<Event>, i: nat, key: string)
    requires IsRun(cfg, ws, es) && i < |ws| && key in ws[0].locals
    ensures key in ws[i].locals && Single(key, ws[i].locals[key], ws[i].shared)
  {
    hide Next, Inv, Bare;
    if i > 0 {
      RunSingle(cfg, ws, es, i - 1, key);
      KeyStep(cfg, ws, es, i - 1);
      RunInv(cfg, ws, es, i - 1);
      var w, e := ws[i - 1], es[i - 1];
      if e.key == key {
        AcceptedSeenStep(cfg, key, w.locals[key], w.shared, e.lab);
        LaunchBareStep(cfg, key, w.locals[key], w.shared, e.lab);
      } else {
        WorldStepKeeps(cfg, w, e);
        SingleForeign(key, e.key, w.locals[key], w.shared, ws[i].shared);
      }
    }
  }

  // ---- One object, one resource ----

  lemma SameOnVersions(kind: Kind, key: string, vs: Versions, sh: Shared, a: string, b: string)
    requires History(kind, key, vs, sh) && !Absent(vs, a) && !Absent(vs, b) && a != "" && b != ""
    requires a in sh.cloud && b in sh.cloud && sh.cloud[a].owner == sh.cloud[b].owner
    ensures a == b
  {
    var i :| 0 <= i < |vs| && vs[i].Some? && vs[i].value.status.id == a;
    var j :| 0 <= j < |vs| && vs[j].Some? && vs[j].value.status.id == b;
    assert VersionOk(kind, key, sh, i, vs[i].value) && VersionOk(kind, key, sh, j, vs[j].value);
    assert i < j ==> Follows(vs[i], vs[j]);
    assert j < i ==> Follows(vs[j], vs[i]);
  }

  // An ID that is not lost is held, or is on a version of its object.
  lemma HeldOrSeen(kind: Kind, key: string, l: Local, sh: Shared, id: string)
    requires Inv(kind, key, l, sh) && Single(key, l, sh) && Owned(key, sh, id) && id !in sh.lost
    ensures id in Held(l.worker) || !Absent(l.versions, id)
  {
    assert Accounted(kind, Last(l.versions), l.worker, sh, id);
    assert Last(l.versions) == l.versions[|l.versions| - 1];
  }

  // While one ID is held, no other resource of that object is on a version.
  lemma HeldAlone(kind: Kind, key: string, l: Local, sh: Shared, a: string, b: string)
    requires Inv(kind, key, l, sh) && Single(key, l, sh) && a in Held(l.worker)
    requires Owned(key, sh, a) && Owned(key, sh, b) && sh.cloud[a].owner == sh.cloud[b].owner
    ensures Absent(l.versions, b)
  {
    var vs := l.versions;
    forall i | 0 <= i < |vs| && vs[i].Some? ensures vs[i].value.status.id != b {
      assert VersionOk(kind, key, sh, i, vs[i].value);
    }
  }

  // Two resources made for one object mean that one of them was lost: by a creation that
  // reported an error, a recording write that did not commit, or a crash in between.
  lemma TwoMeansLost(cfg: Config, ws: seq<World>, es: seq<Event>, i: nat, a: string, b: string)
    requires IsRun(cfg, ws, es) && i < |ws| && a != b
    requires a in ws[i].shared.cloud && b in ws[i].shared.cloud
    requires ws[i].shared.cloud[a].owner == ws[i].shared.cloud[b].owner
    ensures exists j | 0 <= j < i ::
              CanStep(cfg, ws[j], es[j]) && (Loses(cfg.kind, ws[j], es[j], a) || Loses(cfg.kind, ws[j], es[j], b))
  {
    hide Next, Inv, Bare, Absent, LaunchBare, AcceptedSeen;
    LostExactly(cfg, ws, es, i, a);
    LostExactly(cfg, ws, es, i, b);
    RunInv(cfg, ws, es, i);
    var key, sh := ws[i].shared.cloud[a].owner.key, ws[i].shared;
    RunSingle(cfg, ws, es, i, key);
    OneKept(cfg.kind, key, ws[i].locals[key], sh, a, b);
  }

  lemma OneKept(kind: Kind, key: string, l: Local, sh: Shared, a: string, b: string)
    requires Inv(kind, key, l, sh) && Single(key, l, sh) && a != b
    requires Owned(key, sh, a) && Owned(key, sh, b) && sh.cloud[a].owner == sh.cloud[b].owner
    ensures a in sh.lost || b in sh.lost
  {
    hide Books, Ledger, Awake, WorkerOk, Single, Absent, History;
    if a !in sh.lost && b !in sh.lost {
      HeldOrSeen(kind, key, l, sh, a);
      HeldOrSeen(kind, key, l, sh, b);
      if a in Held(l.worker) { HeldAlone(kind, key, l, sh, a, b); }
      else if b in Held(l.worker) { HeldAlone(kind, key, l, sh, b, a); }
      else { SameOnVersions(kind, key, l.versions, sh, a, b); }
    }
  }

  // ---- An object that has its ID never gets another resource ----

  lemma BareNot(kind: Kind, key: string, l: Local, sh: Shared, u: Uid)
    requires Inv(kind, key, l, sh) && Single(key, l, sh) && !Bare(l.versions, u)
    ensures !(l.worker.Launching? && l.worker.mem.uid == u)
  {
  }

  // Once an object has its ID no creation call is issued for it ever again: not when its spec
  // is edited, not when its resource is gone, and not after the object itself is gone.
  lemma NeverAgain(cfg: Config, ws: seq<World>, es: seq<Event>, i: nat, j: nat, u: Uid)
    requires IsRun(cfg, ws, es) && i <= j <= |es| && u.key in ws[0].locals
    requires IsStored(ws[i], u) && StoredAt(ws[i], u.key).value.status.id != ""
    ensures forall m: nat | i <= m < j :: !CreatesAt(ws, es, m, u)
    ensures Tally(cfg.kind, ws, es, j, u).launches == Tally(cfg.kind, ws, es, i, u).launches
  {
    hide Next, Inv, Bare, Single;
    forall m: nat | i <= m < j ensures !CreatesAt(ws, es, m, u) {
      KeyInv(cfg, ws, es, m, u.key);
      RunSingle(cfg, ws, es, m, u.key);
      VersionsExtend(cfg, ws, es, i, m, u.key);
      var vi, vm := ws[i].locals[u.key].versions, ws[m].locals[u.key].versions;
      assert vm[|vi| - 1] == vi[|vi| - 1];
      HasId(vm, |vi| - 1);
      BareNot(cfg.kind, u.key, ws[m].locals[u.key], ws[m].shared, u);
    }
    TallyBetween(cfg, ws, es, i, j, u);
  }

  lemma HasId(vs: Versions, i: nat)
    requires i < |vs| && vs[i].Some? && vs[i].value.status.id != ""
    ensures !Bare(vs, vs[i].value.uid)
  {
  }
}
