// OCISecurityPolicyReconciler, method by method, on the same machine with other phases
// and delays, and the converted rules in its request.
module PolicyReconcilers {
  import opened Resources
  import opened Machine
  import opened Rules
  import opened Heap
  import opened RuleConversion
  import opened Worlds
  import opened StatusChanges
  import opened Clusters
  import opened ApiObjects

  // The creation request for a spec: both sides of the rule list, and all its tags.
  function ListRequest(s: PolicySpec): Request {
    CreateSecurityList(s.compartmentID, s.vcnID, s.displayName,
                       Side(s.rules, true), Side(s.rules, false), s.freeformTags)
  }

  // The flows a creation request lets in and out.
  ghost predicate RequestAdmits(covers: (string, string) -> bool, details: Request, f: Flow)
    requires details.CreateSecurityList?
  {
    ListAdmits(covers, if f.ingress then details.ingress else details.egress, f)
  }

  // What a creation request asks for: the fields, every rule, and the flows of the policy.
  ghost predicate AsSpecified(s: PolicySpec, details: Request) {
    && details.CreateSecurityList?
    && details.compartmentID == s.compartmentID && details.vcnID == s.vcnID && details.displayName == s.displayName
    && details.listTags == s.freeformTags && |details.ingress| + |details.egress| == |s.rules|
    && (forall covers: (string, string) -> bool, f: Flow ::
          PolicyAdmits(covers, s.rules, f) ==> RequestAdmits(covers, details, f))
    && ((forall i | 0 <= i < |s.rules| :: Expressible(s.rules[i]) && KnownDirection(s.rules[i])) ==>
          forall covers: (string, string) -> bool, f: Flow | ValidFlow(f) ::
            PolicyAdmits(covers, s.rules, f) <==> RequestAdmits(covers, details, f))
  }

  lemma ListAsSpecified(s: PolicySpec)
    ensures AsSpecified(s, ListRequest(s))
  {
    hide PolicyAdmits, ListAdmits, Expressible, KnownDirection, Side;
    MergeUndoesSplit(s.rules);
    var details := ListRequest(s);
    forall covers: (string, string) -> bool, f: Flow | PolicyAdmits(covers, s.rules, f)
      ensures RequestAdmits(covers, details, f)
    {
      NeverNarrower(covers, s.rules, f);
    }
    if forall i | 0 <= i < |s.rules| :: Expressible(s.rules[i]) && KnownDirection(s.rules[i]) {
      forall covers: (string, string) -> bool, f: Flow | ValidFlow(f)
        ensures PolicyAdmits(covers, s.rules, f) <==> RequestAdmits(covers, details, f)
      {
        MeaningKept(covers, s.rules, f);
      }
    }
  }

  function CreateFailed(): (s: string)
    ensures s != ""
  {
    "Failed to create security list: "
  }

  class OCISecurityPolicyReconciler {
    const cluster: Cluster
    var hasVirtualNetworkClient: bool

    ghost predicate Configured() {
      cluster.cfg.kind == Policy
      && forall s: PolicySpec :: cluster.cfg.request(ForPolicy(s)) == ListRequest(s)
    }

    constructor (cluster: Cluster, injected: bool)
      requires cluster.cfg.kind == Policy
      requires forall s: PolicySpec :: cluster.cfg.request(ForPolicy(s)) == ListRequest(s)
      ensures Configured() && this.cluster == cluster
    {
      this.cluster := cluster;
      this.hasVirtualNetworkClient := injected;
    }

    // From the dequeued key to the result the runtime sees.
    method Reconcile(key: string) returns (res: CtrlResult, err: bool)
      requires Configured() && cluster.Ready(key) && cluster.At(key).Fetching?
      modifies this, cluster
      ensures cluster.Went(key) && cluster.At(key) == Returned(Outcome(res, err))
      ensures old(hasVirtualNetworkClient) ==> hasVirtualNetworkClient && cluster.Unblamed(key)
    {
      hide IsRun, Finalizer, ClientFailed, CreateFailed;
      var reply := cluster.Get(key);
      if reply.NotFound? {
        return DONE, false;
      }
      if reply.GetError? {
        return DONE, true;
      }
      var policy := new ApiObject(reply.obj);
      if policy.deleting {
        res, err := HandleDeletion(key, policy);
        return;
      }
      if Finalizer(Policy) !in policy.finalizers {
        res, err := AddFinalizer(key, policy);
        return;
      }
      if policy.phase == Failed && policy.observedGeneration == policy.generation {
        return DONE, false;
      }
      res, err := Ensure(key, policy);
    }

    // Step 3 of Reconcile: the write that adds the finalizer, and nothing else this time.
    method AddFinalizer(key: string, policy: ApiObject) returns (res: CtrlResult, err: bool)
      requires Configured() && cluster.Ready(key)
      requires cluster.At(key) == AddingFinalizer(policy.Value())
      modifies cluster, policy
      ensures cluster.Went(key) && cluster.At(key) == Returned(Outcome(res, err))
      ensures cluster.Unblamed(key)
    {
      hide IsRun, Finalizer;
      policy.finalizers := policy.finalizers + {Finalizer(Policy)};
      var ok := cluster.Update(key, policy.Value());
      return DONE, !ok;
    }

    // The second half of Reconcile: a client, then the resource.
    method Ensure(key: string, policy: ApiObject) returns (res: CtrlResult, err: bool)
      requires Configured() && cluster.Ready(key) && SpecOk(Policy, policy.spec)
      requires cluster.At(key) == NeedClient(policy.Value())
      modifies this, cluster, policy
      ensures cluster.Went(key) && cluster.At(key) == Returned(Outcome(res, err))
      ensures hasVirtualNetworkClient <==> old(hasVirtualNetworkClient) || cluster.Unblamed(key)
      ensures old(hasVirtualNetworkClient) ==> cluster.Unblamed(key)
      ensures !err && !hasVirtualNetworkClient ==>
                policy.phase == Failed && "Failed to create OCI client: " <= policy.failureReason
    {
      hide IsRun;
      if !hasVirtualNetworkClient {
        var e := cluster.NewClient(key, ClientFailed());
        if e.Some? {
          res, err := SetFailedStatus(cluster, key, policy, ClientFailed() + e.value);
          return;
        }
        hasVirtualNetworkClient := true;
      }
      res, err := WithClient(key, policy);
    }

    // Steps 5 and 6 of Reconcile: the resource exists, or is created.
    method WithClient(key: string, policy: ApiObject) returns (res: CtrlResult, err: bool)
      requires Configured() && cluster.Ready(key) && SpecOk(Policy, policy.spec)
      requires cluster.At(key) == NeedClient(policy.Value())
      modifies cluster, policy
      ensures cluster.Went(key) && cluster.At(key) == Returned(Outcome(res, err))
      ensures cluster.Unblamed(key)
    {
      hide IsRun;
      cluster.UseClient(key);
      if policy.id != "" {
        res, err := ReconcileExisting(key, policy);
      } else {
        res, err := ReconcileNew(key, policy);
      }
    }

    // The first part of HandleDeletion for an object with an ID: a client, then the call.
    method Destroy(key: string, policy: ApiObject) returns (res: CtrlResult, err: bool)
      requires Configured() && cluster.Ready(key)
      requires cluster.At(key) == Destroying(policy.Value())
      modifies cluster
      ensures cluster.Went(key)
      ensures cluster.At(key) == if err then Returned(Retry) else Unfinalizing(policy.Value())
      ensures hasVirtualNetworkClient ==> cluster.Unblamed(key)
    {
      hide IsRun;
      if !hasVirtualNetworkClient {
        var made := cluster.NewClientForDeletion(key);
        if !made {
          return DONE, true;
        }
      }
      var accepted := cluster.Terminate(key, policy.id);
      if !accepted {
        return CtrlResult(SHORT_DELAY), true;
      }
      return DONE, false;
    }

    method HandleDeletion(key: string, policy: ApiObject) returns (res: CtrlResult, err: bool)
      requires Configured() && cluster.Ready(key) && policy.deleting
      requires cluster.At(key) == Dispatch(Policy, Some(policy.Value()))
      modifies cluster, policy
      ensures cluster.Went(key) && cluster.At(key) == Returned(Outcome(res, err))
      ensures hasVirtualNetworkClient ==> cluster.Unblamed(key)
    {
      hide IsRun, Finalizer, ClientFailed, CreateFailed;
      if Finalizer(Policy) !in policy.finalizers {
        return DONE, false;
      }
      if policy.id != "" {
        res, err := Destroy(key, policy);
        if err {
          return;
        }
      }
      policy.finalizers := policy.finalizers - {Finalizer(Policy)};
      var ok := cluster.Update(key, policy.Value());
      return DONE, !ok;
    }

    // The rules of a spec in memory, as a client that read the object leaves them there.
    method InMemory(rules: seq<Rule>) returns (slice: seq<SecurityRule>)
      ensures Values(slice) == rules
    {
      slice := [];
      for i := 0 to |rules|
        invariant |slice| == i
        invariant forall k, o | 0 <= k < i && o in slice[k].Ports() :: fresh(o) && allocated(o)
        invariant forall k | 0 <= k < i :: slice[k].Value() == rules[k]
      {
        var r := rules[i];
        var minPort: Cell?<int>, maxPort: Cell?<int> := null, null;
        if r.minPort.Some? {
          minPort := new Cell(r.minPort.value);
        }
        if r.maxPort.Some? {
          maxPort := new Cell(r.maxPort.value);
        }
        var rule := SecurityRule(r.description, r.direction, r.protocol, r.source, r.destination, minPort, maxPort);
        slice := slice + [rule];
      }
    }

    // convertRules, then the request built from what its two slices point to.
    method BuildListDetails(spec: PolicySpec) returns (details: Request)
      ensures details == ListRequest(spec) && AsSpecified(spec, details)
    {
      ListAsSpecified(spec);
      var slice := InMemory(spec.rules);
      var ingress, egress := ConvertRules(slice);
      details := CreateSecurityList(spec.compartmentID, spec.vcnID, spec.displayName,
                                    Views(ingress), Views(egress), spec.freeformTags);
    }

    method ReconcileNew(key: string, policy: ApiObject) returns (res: CtrlResult, err: bool)
      requires Configured() && cluster.Ready(key) && SpecOk(Policy, policy.spec)
      requires cluster.At(key) == Fencing(policy.Value())
      modifies cluster, policy
      ensures cluster.Went(key) && cluster.At(key) == Returned(Outcome(res, err))
      ensures cluster.Unblamed(key)
    {
      hide IsRun, ListRequest, Finalizer, ClientFailed, CreateFailed;
      policy.phase := Creating;
      var ok, copy := cluster.StatusUpdate(key, policy.Value());
      if !ok {
        return DONE, true;
      }
      policy.Load(copy);
      res, err := Launch(key, policy);
    }

    // The second half of ReconcileNew: the launch and its outcome.
    method Launch(key: string, policy: ApiObject) returns (res: CtrlResult, err: bool)
      requires Configured() && cluster.Ready(key) && SpecOk(Policy, policy.spec)
      requires cluster.At(key) == Launching(policy.Value())
      modifies cluster, policy
      ensures cluster.Went(key) && cluster.At(key) == Returned(Outcome(res, err))
      ensures cluster.Unblamed(key)
      ensures !err && policy.phase == Failed ==> "Failed to create security list: " <= policy.failureReason
    {
      hide IsRun, ListRequest;
      var details := BuildListDetails(policy.spec.policy);
      var id, e := cluster.Create(key, details, CreateFailed());
      if id.None? {
        res, err := SetFailedStatus(cluster, key, policy, CreateFailed() + e);
        return;
      }
      res, err := Record(key, policy, id.value);
    }

    // The last write of ReconcileNew: the ID, the phase and the generation launched.
    method Record(key: string, policy: ApiObject, id: string) returns (res: CtrlResult, err: bool)
      requires Configured() && cluster.Ready(key)
      requires cluster.At(key) == Recording(policy.Value(), id)
      modifies cluster, policy
      ensures cluster.Went(key) && cluster.At(key) == Returned(Outcome(res, err))
      ensures cluster.Unblamed(key)
      ensures !err ==> policy.id == id && policy.phase == Active && policy.observedGeneration == policy.generation
      ensures !err ==> res.requeueAfter == 300
    {
      hide IsRun;
      policy.id := id;
      policy.phase := Active;
      policy.observedGeneration := policy.generation;
      var ok, copy := cluster.StatusUpdate(key, policy.Value());
      if !ok {
        return DONE, true;
      }
      policy.Load(copy);
      return CtrlResult(LONG_DELAY), false;
    }

    method ReconcileExisting(key: string, policy: ApiObject) returns (res: CtrlResult, err: bool)
      requires Configured() && cluster.Ready(key)
      requires cluster.At(key) == Polling(policy.Value())
      modifies cluster, policy
      ensures cluster.Went(key) && cluster.At(key) == Returned(Outcome(res, err))
      ensures cluster.Unblamed(key)
    {
      hide IsRun, Finalizer, ClientFailed, CreateFailed;
      var life := cluster.Poll(key, policy.id);
      if life.None? {
        return CtrlResult(SHORT_DELAY), true;
      }
      res, err := Sync(key, policy, life.value);
    }

    // The second half of ReconcileExisting: map the lifecycle state, write it, requeue.
    method Sync(key: string, policy: ApiObject, life: Life) returns (res: CtrlResult, err: bool)
      requires Configured() && cluster.Ready(key)
      requires cluster.At(key) == Syncing(policy.Value(), life)
      modifies cluster, policy
      ensures cluster.Went(key) && cluster.At(key) == Returned(Outcome(res, err))
      ensures cluster.Unblamed(key)
      ensures !err ==> Says(Policy, policy.phase, life)
      ensures !err ==> res.requeueAfter == if life == ProvisioningState then 30 else 300
      ensures !err ==> policy.observedGeneration
                       == if policy.phase == Creating then old(policy.observedGeneration) else policy.generation
    {
      hide IsRun, Says;
      ghost var before := policy.Value();
      PhaseSays(Policy, PhaseOf(Policy, life), life);
      match life {
        case AvailableState =>
          policy.phase := Active;
        case ProvisioningState =>
          res, err := StillProvisioning(key, policy, life);
          return;
        case TerminatingState =>
          policy.phase := Deleting;
        case TerminatedState =>
          policy.phase := Deleted;
        case _ =>
          policy.phase := Failed;
      }
      res, err := Settle(key, policy, before, life);
    }

    // The end of Sync: the generation is observed, all is written, and the key requeued.
    method Settle(key: string, policy: ApiObject, ghost before: Obj, life: Life) returns (res: CtrlResult, err: bool)
      requires Configured() && cluster.Ready(key) && cluster.At(key) == Syncing(before, life)
      requires policy.Value() == before.(status := before.status.(phase := PhaseOf(Policy, life)))
      requires policy.phase != Creating
      modifies cluster, policy
      ensures cluster.Went(key) && cluster.At(key) == Returned(Outcome(res, err))
      ensures cluster.Unblamed(key)
      ensures policy.phase == old(policy.phase)
      ensures !err ==> policy.observedGeneration == policy.generation
      ensures !err ==> res.requeueAfter == if life == ProvisioningState then 30 else 300
    {
      hide IsRun;
      policy.observedGeneration := policy.generation;
      var ok, copy := cluster.StatusUpdate(key, policy.Value());
      if !ok {
        return DONE, true;
      }
      policy.Load(copy);
      return CtrlResult(LONG_DELAY), false;
    }

    // The provisioning case returns early and leaves ObservedGeneration alone.
    method StillProvisioning(key: string, policy: ApiObject, life: Life) returns (res: CtrlResult, err: bool)
      requires Configured() && cluster.Ready(key) && life.ProvisioningState?
      requires cluster.At(key) == Syncing(policy.Value(), life)
      modifies cluster, policy
      ensures cluster.Went(key) && cluster.At(key) == Returned(Outcome(res, err))
      ensures cluster.Unblamed(key)
      ensures !err ==> policy.phase == Creating && res.requeueAfter == 30
      ensures !err ==> policy.observedGeneration == old(policy.observedGeneration)
    {
      hide IsRun, ListRequest, Finalizer, ClientFailed, CreateFailed;
      policy.phase := Creating;
      var ok, copy := cluster.StatusUpdate(key, policy.Value());
      if !ok {
        return DONE, true;
      }
      policy.Load(copy);
      return CtrlResult(SHORT_DELAY), false;
    }
  }
}
