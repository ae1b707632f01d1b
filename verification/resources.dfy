// The two custom resources as values: specs, phases, status, and the object the
// API server stores. Both CRDs share one shape, so they share one datatype.
module Resources {

  datatype Option<+T> = None | Some(value: T)

  datatype Kind = Instance | Policy

  // The identity the server gives to one life of an object: the key it lives
  // under and a number no other object under that key has.
  datatype Uid = Uid(key: string, n: nat)

  // Every phase either CRD names. Unset is the empty string of a new object.
  datatype Phase =
    | Unset | Pending | Failed
    | Provisioning | Running | Terminating | Terminated        // OCIInstance
    | Creating | Active | Updating | Deleting | Deleted        // OCISecurityPolicy

  // Lifecycle states the cloud reports; OtherState is any state no case names.
  datatype Life =
    | ProvisioningState | StartingState | RunningState | AvailableState
    | TerminatingState | TerminatedState | OtherState

  datatype InstanceSpec = InstanceSpec(
    compartmentID: string, displayName: string, shape: string, imageID: string,
    availabilityDomain: string, subnetID: string,
    ocpus: Option<string>, memoryInGBs: Option<string>,
    freeformTags: map<string, string>)

  datatype Rule = Rule(
    description: string, direction: string, protocol: string,
    source: string, destination: string,
    minPort: Option<int>, maxPort: Option<int>)

  datatype PolicySpec = PolicySpec(
    compartmentID: string, vcnID: string, displayName: string,
    rules: seq<Rule>, freeformTags: map<string, string>)

  datatype Spec = ForInstance(instance: InstanceSpec) | ForPolicy(policy: PolicySpec)

  datatype Status = Status(id: string, phase: Phase, reason: string, observed: nat)

  const EMPTY_STATUS := Status("", Unset, "", 0)

  datatype Obj = Obj(
    uid: Uid, rv: nat, generation: nat, deleting: bool, finalizers: set<string>,
    spec: Spec, status: Status)

  // The guard both reconcilers stop at: failed, and nothing edited since.
  predicate FailedForGeneration(o: Obj) {
    o.status.phase == Failed && o.status.observed == o.generation
  }

  // ---- Requests sent to the cloud ----

  datatype ShapeConfig = ShapeConfig(ocpus: real, memoryInGBs: real)

  datatype PortRange = PortRange(min: int, max: int)

  datatype OciRule = OciRule(protocol: string, cidr: string, description: string, tcpOptions: Option<PortRange>)

  datatype Request =
    | LaunchInstance(compartmentID: string, displayName: string, shape: string, imageID: string,
                     availabilityDomain: string, subnetID: string,
                     shapeConfig: Option<ShapeConfig>, freeformTags: map<string, string>)
    | CreateSecurityList(compartmentID: string, vcnID: string, displayName: string,
                         ingress: seq<OciRule>, egress: seq<OciRule>, listTags: map<string, string>)
}
