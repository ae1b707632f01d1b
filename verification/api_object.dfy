// The in-memory copy of a custom resource, as both reconcilers fill and change it, and
// the failure path they share.
module ApiObjects {
  import opened Resources
  import opened Machine
  import opened Clusters

  // What a reconcile returns besides its error.
  datatype CtrlResult = CtrlResult(requeueAfter: nat)

  const DONE := CtrlResult(0)

  // How the controller runtime takes a returned pair: an error always means a retry.
  function Outcome(res: CtrlResult, err: bool): Result {
    if err then Retry else if res.requeueAfter > 0 then RequeueAfter(res.requeueAfter) else Stop
  }

  // What a failure to make a cloud client is reported with.
  function ClientFailed(): (s: string)
    ensures s != ""
  {
    "Failed to create OCI client: "
  }

  class ApiObject {
    var uid: Uid
    var resourceVersion: nat
    var generation: nat
    var deleting: bool
    var finalizers: set<string>
    var spec: Spec
    var id: string
    var phase: Phase
    var failureReason: string
    var observedGeneration: nat

    function Value(): Obj
      reads this
    {
      Obj(uid, resourceVersion, generation, deleting, finalizers, spec,
          Status(id, phase, failureReason, observedGeneration))
    }

    constructor (o: Obj)
      ensures Value() == o
    {
      uid, resourceVersion, generation, deleting := o.uid, o.rv, o.generation, o.deleting;
      finalizers, spec := o.finalizers, o.spec;
      id, phase, failureReason, observedGeneration := o.status.id, o.status.phase, o.status.reason, o.status.observed;
    }

    // The client writes the server's copy over the object.
    method Load(o: Obj)
      modifies this
      ensures Value() == o
    {
      uid, resourceVersion, generation, deleting := o.uid, o.rv, o.generation, o.deleting;
      finalizers, spec := o.finalizers, o.spec;
      id, phase, failureReason, observedGeneration := o.status.id, o.status.phase, o.status.reason, o.status.observed;
    }

    method SetFailedStatus(reason: string)
      modifies this
      ensures Value() == old(Value()).(status := old(Value()).status.(phase := Failed, reason := reason))
    {
      phase := Failed;
      failureReason := reason;
    }

    method SetObservedGeneration(g: nat)
      modifies this
      ensures Value() == old(Value()).(status := old(Value()).status.(observed := g))
    {
      observedGeneration := g;
    }
  }

  // Refetch, mark failed for the generation just read, write. Follows the machine from
  // Refetching to its return; when it reports success the object is failed for good.
  method SetFailedStatus(cluster: Cluster, key: string, obj: ApiObject, reason: string)
    returns (res: CtrlResult, err: bool)
    requires cluster.Ready(key) && cluster.At(key).Refetching? && cluster.At(key).reason == reason
    modifies cluster, obj
    ensures cluster.Went(key) && cluster.Unblamed(key) && cluster.At(key) == Returned(Outcome(res, err))
    ensures !err ==> FailedForGeneration(obj.Value()) && obj.failureReason == reason
  {
    var reply := cluster.Get(key);
    if !reply.Found? {
      return DONE, true;
    }
    obj.Load(reply.obj);
    obj.SetFailedStatus(reason);
    obj.SetObservedGeneration(obj.generation);
    var ok, copy := cluster.StatusUpdate(key, obj.Value());
    if !ok {
      return DONE, true;
    }
    obj.Load(copy);
    return DONE, false;
  }
}
