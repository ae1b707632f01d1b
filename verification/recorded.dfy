// What the resource on record was asked to be, in terms of the stored spec.
module Recorded {
  import opened Resources
  import opened Machine
  import opened Invariants
  import opened Worlds
  import opened Safety
  import opened Requests
  import I = InstanceReconcilers
  import P = PolicyReconcilers

  lemma StoredSpecOk(cfg: Config, ws: seq<World>, es: seq<Event>, i: nat, key: string)
    requires IsRun(cfg, ws, es) && i < |ws| && key in ws[0].locals && StoredAt(ws[i], key).Some?
    ensures SpecOk(cfg.kind, StoredAt(ws[i], key).value.spec)
  {
    KeyInv(cfg, ws, es, i, key);
    var l := ws[i].locals[key];
    assert VersionOk(cfg.kind, key, ws[i].shared, |l.versions| - 1, Last(l.versions).value);
  }

  // When an instance ID is first recorded, the instance was launched with every field of the
  // spec that is stored with it.
  lemma InstanceAsSpecified(cfg: Config, parse: string -> real, ws: seq<World>, es: seq<Event>, i: nat, key: string)
    requires cfg.kind == Instance
    requires forall s: InstanceSpec :: cfg.request(ForInstance(s)) == I.LaunchRequest(parse, s)
    requires IsRun(cfg, ws, es) && i < |es| && key in ws[0].locals
    requires GainsId(StoredAt(ws[i], key), StoredAt(ws[i + 1], key))
    ensures var b := StoredAt(ws[i + 1], key).value;
      && b.spec.ForInstance? && b.status.id in ws[i + 1].shared.cloud
      && I.AsSpecified(parse, b.spec.instance, ws[i + 1].shared.cloud[b.status.id].request)
  {
    hide Initial, Steps;
    RecordedAsRequested(cfg, ws, es, i, key);
    StoredSpecOk(cfg, ws, es, i + 1, key);
  }

  // When a security list ID is first recorded, the list was created with the fields and the
  // flows of the spec that is stored with it.
  lemma PolicyAsSpecified(cfg: Config, ws: seq<World>, es: seq<Event>, i: nat, key: string)
    requires cfg.kind == Policy
    requires forall s: PolicySpec :: cfg.request(ForPolicy(s)) == P.ListRequest(s)
    requires IsRun(cfg, ws, es) && i < |es| && key in ws[0].locals
    requires GainsId(StoredAt(ws[i], key), StoredAt(ws[i + 1], key))
    ensures var b := StoredAt(ws[i + 1], key).value;
      && b.spec.ForPolicy? && b.status.id in ws[i + 1].shared.cloud
      && P.AsSpecified(b.spec.policy, ws[i + 1].shared.cloud[b.status.id].request)
  {
    hide Initial, Steps, P.AsSpecified;
    RecordedAsRequested(cfg, ws, es, i, key);
    StoredSpecOk(cfg, ws, es, i + 1, key);
    P.ListAsSpecified(StoredAt(ws[i + 1], key).value.spec.policy);
  }
}
