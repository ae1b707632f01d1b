// OCIInstanceReconciler, method by method. Each method takes the machine from where it
// is called to where it returns, so every property of runs holds of the code.
module InstanceReconcilers {
  import opened Resources
  import opened Machine
  import opened Worlds
  import opened StatusChanges
  import opened Clusters
  import opened ApiObjects

  // The launch request for a spec: flex shapes need both numbers, or none is sent.
  function LaunchRequest(parse: string -> real, s: InstanceSpec): Request {
    LaunchInstance(s.compartmentID, s.displayName, s.shape, s.imageID, s.availabilityDomain, s.subnetID,
                   if s.ocpus.Some? && s.memoryInGBs.Some?
                   then Some(ShapeConfig(parse(s.ocpus.value), parse(s.memoryInGBs.value))) else None,
                   s.freeformTags)
  }

  // What a launch request asks for, field by field.
  ghost predicate AsSpecified(parse: string -> real, s: InstanceSpec, details: Request) {
    && details.LaunchInstance?
    && details.compartmentID == s.compartmentID && details.displayName == s.displayName
    && details.shape == s.shape && details.imageID == s.imageID
    && details.availabilityDomain == s.availabilityDomain && details.subnetID == s.subnetID
    && details.freeformTags == s.freeformTags
    && (details.shapeConfig.Some? <==> s.ocpus.Some? && s.memoryInGBs.Some?)
    && (details.shapeConfig.Some? ==>
          && details.shapeConfig.value.ocpus == parse(s.ocpus.value)
          && details.shapeConfig.value.memoryInGBs == parse(s.memoryInGBs.value))
  }

  function LaunchFailed(): (s: string)
    ensures s != ""
  {
    "Failed to launch instance: "
  }

  class OCIInstanceReconciler {
    const cluster: Cluster
    const parse: string -> real
    var hasComputeClient: bool

    ghost predicate Configured() {
      cluster.cfg.kind == Instance
      && forall s: InstanceSpec :: cluster.cfg.request(ForInstance(s)) == LaunchRequest(parse, s)
    }

    constructor (cluster: Cluster, parse: string -> real, injected: bool)
      requires cluster.cfg.kind == Instance
      requires forall s: InstanceSpec :: cluster.cfg.request(ForInstance(s)) == LaunchRequest(parse, s)
      ensures Configured() && this.cluster == cluster
    {
      this.cluster := cluster;
      this.parse := parse;
      this.hasComputeClient := injected;
    }

    // From the dequeued key to the result the runtime sees.
    method Reconcile(key: string) returns (res: CtrlResult, err: bool)
      requires Configured() && cluster.Ready(key) && cluster.At(key).Fetching?
      modifies this, cluster
      ensures cluster.Went(key) && cluster.At(key) == Returned(Outcome(res, err))
      ensures old(hasComputeClient) ==> hasComputeClient && cluster.Unblamed(key)
    {
      hide IsRun, Finalizer, ClientFailed, LaunchFailed;
      var reply := cluster.Get(key);
      if reply.NotFound? {
        return DONE, false;
      }
      if reply.GetError? {
        return DONE, true;
      }
      var instance := new ApiObject(reply.obj);
      if instance.deleting {
        res, err := HandleDeletion(key, instance);
        return;
      }
      if Finalizer(Instance) !in instance.finalizers {
        res, err := AddFinalizer(key, instance);
        return;
      }
      if instance.phase == Failed && instance.observedGeneration == instance.generation {
        return DONE, false;
      }
      res, err := Ensure(key, instance);
    }

    // Step 3 of Reconcile: the write that adds the finalizer, and nothing else this time.
    method AddFinalizer(key: string, instance: ApiObject) returns (res: CtrlResult, err: bool)
      requires Configured() && cluster.Ready(key)
      requires cluster.At(key) == AddingFinalizer(instance.Value())
      modifies cluster, instance
      ensures cluster.Went(key) && cluster.At(key) == Returned(Outcome(res, err))
      ensures cluster.Unblamed(key)
    {
      hide IsRun, Finalizer;
      instance.finalizers := instance.finalizers + {Finalizer(Instance)};
      var ok := cluster.Update(key, instance.Value());
      return DONE, !ok;
    }

    // The second half of Reconcile: a client, then the resource.
    method Ensure(key: string, instance: ApiObject) returns (res: CtrlResult, err: bool)
      requires Configured() && cluster.Ready(key) && SpecOk(Instance, instance.spec)
      requires cluster.At(key) == NeedClient(instance.Value())
      modifies this, cluster, instance
      ensures cluster.Went(key) && cluster.At(key) == Returned(Outcome(res, err))
      ensures hasComputeClient <==> old(hasComputeClient) || cluster.Unblamed(key)
      ensures old(hasComputeClient) ==> cluster.Unblamed(key)
      ensures !err && !hasComputeClient ==>
                instance.phase == Failed && "Failed to create OCI client: " <= instance.failureReason
    {
      hide IsRun;
      if !hasComputeClient {
        var e := cluster.NewClient(key, ClientFailed());
        if e.Some? {
          res, err := SetFailedStatus(cluster, key, instance, ClientFailed() + e.value);
          return;
        }
        hasComputeClient := true;
      }
      res, err := WithClient(key, instance);
    }

    // Steps 5 and 6 of Reconcile: the resource exists, or is created.
    method WithClient(key: string, instance: ApiObject) returns (res: CtrlResult, err: bool)
      requires Configured() && cluster.Ready(key) && SpecOk(Instance, instance.spec)
      requires cluster.At(key) == NeedClient(instance.Value())
      modifies cluster, instance
      ensures cluster.Went(key) && cluster.At(key) == Returned(Outcome(res, err))
      ensures cluster.Unblamed(key)
    {
      hide IsRun;
      cluster.UseClient(key);
      if instance.id != "" {
        res, err := ReconcileExisting(key, instance);
      } else {
        res, err := ReconcileNew(key, instance);
      }
    }

    // The first part of HandleDeletion for an object with an ID: a client, then the call.
    method Destroy(key: string, instance: ApiObject) returns (res: CtrlResult, err: bool)
      requires Configured() && cluster.Ready(key)
      requires cluster.At(key) == Destroying(instance.Value())
      modifies cluster
      ensures cluster.Went(key)
      ensures cluster.At(key) == if err then Returned(Retry) else Unfinalizing(instance.Value())
      ensures hasComputeClient ==> cluster.Unblamed(key)
    {
      hide IsRun;
      if !hasComputeClient {
        var made := cluster.NewClientForDeletion(key);
        if !made {
          return DONE, true;
        }
      }
      var accepted := cluster.Terminate(key, instance.id);
      if !accepted {
        return CtrlResult(SHORT_DELAY), true;
      }
      return DONE, false;
    }

    method HandleDeletion(key: string, instance: ApiObject) returns (res: CtrlResult, err: bool)
      requires Configured() && cluster.Ready(key) && instance.deleting
      requires cluster.At(key) == Dispatch(Instance, Some(instance.Value()))
      modifies cluster, instance
      ensures cluster.Went(key) && cluster.At(key) == Returned(Outcome(res, err))
      ensures hasComputeClient ==> cluster.Unblamed(key)
    {
      hide IsRun, Finalizer, ClientFailed, LaunchFailed;
      if Finalizer(Instance) !in instance.finalizers {
        return DONE, false;
      }
      if instance.id != "" {
        res, err := Destroy(key, instance);
        if err {
          return;
        }
      }
      instance.finalizers := instance.finalizers - {Finalizer(Instance)};
      var ok := cluster.Update(key, instance.Value());
      return DONE, !ok;
    }

    // The request, field by field: flex config and tags are added only if present.
    method BuildLaunchDetails(spec: InstanceSpec) returns (details: Request)
      ensures details == LaunchRequest(parse, spec) && AsSpecified(parse, spec, details)
    {
      details := LaunchInstance(spec.compartmentID, spec.displayName, spec.shape, spec.imageID,
                                spec.availabilityDomain, spec.subnetID, None, map[]);
      if spec.ocpus.Some? && spec.memoryInGBs.Some? {
        details := details.(shapeConfig := Some(ShapeConfig(parse(spec.ocpus.value), parse(spec.memoryInGBs.value))));
      }
      if |spec.freeformTags| > 0 {
        details := details.(freeformTags := spec.freeformTags);
      }
    }

    method ReconcileNew(key: string, instance: ApiObject) returns (res: CtrlResult, err: bool)
      requires Configured() && cluster.Ready(key) && SpecOk(Instance, instance.spec)
      requires cluster.At(key) == Fencing(instance.Value())
      modifies cluster, instance
      ensures cluster.Went(key) && cluster.At(key) == Returned(Outcome(res, err))
      ensures cluster.Unblamed(key)
    {
      hide IsRun, LaunchRequest, Finalizer, ClientFailed, LaunchFailed;
      instance.phase := Provisioning;
      var ok, copy := cluster.StatusUpdate(key, instance.Value());
      if !ok {
        return DONE, true;
      }
      instance.Load(copy);
      res, err := Launch(key, instance);
    }

    // The second half of ReconcileNew: the launch and its outcome.
    method Launch(key: string, instance: ApiObject) returns (res: CtrlResult, err: bool)
      requires Configured() && cluster.Ready(key) && SpecOk(Instance, instance.spec)
      requires cluster.At(key) == Launching(instance.Value())
      modifies cluster, instance
      ensures cluster.Went(key) && cluster.At(key) == Returned(Outcome(res, err))
      ensures cluster.Unblamed(key)
      ensures !err && instance.phase == Failed ==> "Failed to launch instance: " <= instance.failureReason
    {
      hide IsRun, LaunchRequest;
      var details := BuildLaunchDetails(instance.spec.instance);
      var id, e := cluster.Create(key, details, LaunchFailed());
      if id.None? {
        res, err := SetFailedStatus(cluster, key, instance, LaunchFailed() + e);
        return;
      }
      res, err := Record(key, instance, id.value);
    }

    // The last write of ReconcileNew: the ID, the phase and the generation launched.
    method Record(key: string, instance: ApiObject, id: string) returns (res: CtrlResult, err: bool)
      requires Configured() && cluster.Ready(key)
      requires cluster.At(key) == Recording(instance.Value(), id)
      modifies cluster, instance
      ensures cluster.Went(key) && cluster.At(key) == Returned(Outcome(res, err))
      ensures cluster.Unblamed(key)
      ensures !err ==> instance.id == id && instance.phase == Provisioning
      ensures !err ==> instance.observedGeneration == instance.generation
      ensures !err ==> res.requeueAfter == 30
    {
      hide IsRun;
      instance.id := id;
      instance.phase := Provisioning;
      instance.observedGeneration := instance.generation;
      var ok, copy := cluster.StatusUpdate(key, instance.Value());
      if !ok {
        return DONE, true;
      }
      instance.Load(copy);
      return CtrlResult(SHORT_DELAY), false;
    }

    method ReconcileExisting(key: string, instance: ApiObject) returns (res: CtrlResult, err: bool)
      requires Configured() && cluster.Ready(key)
      requires cluster.At(key) == Polling(instance.Value())
      modifies cluster, instance
      ensures cluster.Went(key) && cluster.At(key) == Returned(Outcome(res, err))
      ensures cluster.Unblamed(key)
    {
      hide IsRun, Finalizer, ClientFailed, LaunchFailed;
      var life := cluster.Poll(key, instance.id);
      if life.None? {
        return CtrlResult(SHORT_DELAY), true;
      }
      res, err := Sync(key, instance, life.value);
    }

    // The second half of ReconcileExisting: map the lifecycle state, write it, requeue.
    method Sync(key: string, instance: ApiObject, life: Life) returns (res: CtrlResult, err: bool)
      requires Configured() && cluster.Ready(key)
      requires cluster.At(key) == Syncing(instance.Value(), life)
      modifies cluster, instance
      ensures cluster.Went(key) && cluster.At(key) == Returned(Outcome(res, err))
      ensures cluster.Unblamed(key)
      ensures !err ==> Says(Instance, instance.phase, life)
      ensures !err ==> res.requeueAfter == if life == RunningState then 300 else 30
      ensures !err ==> instance.observedGeneration
                       == if instance.phase == Provisioning then old(instance.observedGeneration)
                          else instance.generation
    {
      hide IsRun, Says;
      ghost var before := instance.Value();
      PhaseSays(Instance, PhaseOf(Instance, life), life);
      match life {
        case RunningState =>
          instance.phase := Running;
        case ProvisioningState =>
          res, err := StillProvisioning(key, instance, life);
          return;
        case StartingState =>
          res, err := StillProvisioning(key, instance, life);
          return;
        case TerminatingState =>
          instance.phase := Terminating;
        case TerminatedState =>
          instance.phase := Terminated;
        case _ =>
          instance.phase := Failed;
      }
      res, err := Settle(key, instance, before, life);
    }

    // The end of Sync: the generation is observed, all is written, and the key requeued.
    method Settle(key: string, instance: ApiObject, ghost before: Obj, life: Life) returns (res: CtrlResult, err: bool)
      requires Configured() && cluster.Ready(key) && cluster.At(key) == Syncing(before, life)
      requires instance.Value() == before.(status := before.status.(phase := PhaseOf(Instance, life)))
      requires instance.phase != Provisioning
      modifies cluster, instance
      ensures cluster.Went(key) && cluster.At(key) == Returned(Outcome(res, err))
      ensures cluster.Unblamed(key)
      ensures instance.phase == old(instance.phase)
      ensures !err ==> instance.observedGeneration == instance.generation
      ensures !err ==> res.requeueAfter == if life == RunningState then 300 else 30
    {
      hide IsRun;
      instance.observedGeneration := instance.generation;
      var ok, copy := cluster.StatusUpdate(key, instance.Value());
      if !ok {
        return DONE, true;
      }
      instance.Load(copy);
      if instance.phase == Running {
        return CtrlResult(LONG_DELAY), false;
      }
      return CtrlResult(SHORT_DELAY), false;
    }

    // The provisioning cases return early and leave ObservedGeneration alone.
    method StillProvisioning(key: string, instance: ApiObject, life: Life) returns (res: CtrlResult, err: bool)
      requires Configured() && cluster.Ready(key) && (life.ProvisioningState? || life.StartingState?)
      requires cluster.At(key) == Syncing(instance.Value(), life)
      modifies cluster, instance
      ensures cluster.Went(key) && cluster.At(key) == Returned(Outcome(res, err))
      ensures cluster.Unblamed(key)
      ensures !err ==> instance.phase == Provisioning && res.requeueAfter == 30
      ensures !err ==> instance.observedGeneration == old(instance.observedGeneration)
    {
      hide IsRun, LaunchRequest, Finalizer, ClientFailed, LaunchFailed;
      instance.phase := Provisioning;
      var ok, copy := cluster.StatusUpdate(key, instance.Value());
      if !ok {
        return DONE, true;
      }
      instance.Load(copy);
      return CtrlResult(SHORT_DELAY), false;
    }
  }
}
