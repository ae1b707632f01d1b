# A model of the OCI operator, with proofs

The operator keeps cloud resources in step with two Kubernetes custom resources:
`OCIInstance` (a compute instance) and `OCISecurityPolicy` (a VCN security list). Its two
reconcilers are the same distributed protocol with different phases, delays and requests.
A reconcile is a sequence of separate remote calls (read from the informer cache, add the
finalizer, "fence" the status, create the cloud resource, write its ID, or refetch and write
a failure). Between any two of these calls the user may edit or delete the object, anybody
may write its metadata, the cache may jump to any version, the cloud may move, a call may
fail before or after taking effect, and the operator may crash.

## How the model is built

`machine.dfy` is that protocol for one key: a labelled transition system in which every
remote call is one step and all nondeterminism is in the label, so a step is a function.
`world.dfy` puts all keys beside one cloud and defines runs. `invariants.dfy` states what
every reachable state satisfies; `preservation.dfy` and `preservation_writes.dfy` prove it
step by step. The theorems about whole runs are in `safety.dfy` (orphans, IDs, generations,
wakeups), `launches.dfy` and `launch_bounds.dfy` (why and how often a resource is created,
what Failed means), `duplicates.dfy` (how many resources one object can have),
`deletion.dfy`, `returns.dfy` (what a reconcile returns), `requests.dfy` and `recorded.dfy`
(what a recorded resource was created from), `status.dfy` (which writes made the status what
it is), `phases.dfy`, `convergence.dfy`, `off_track.dfy` (where convergence stops) and
`drift.dfy` (how far a resource lags behind an edited spec). `witnesses.dfy` and `aftermath.dfy` hold concrete reachable runs on which the
unconditional form of a promise fails.

The code follows the machine. `instance_reconciler.dfy` and `policy_reconciler.dfy` are the
two reconcilers as classes whose methods have the branches of the Go methods and mutate an
`ApiObject` (`api_object.dfy`) in place. They make their remote calls on a `Cluster`
(`cluster.dfy`), which interleaves arbitrary steps of everybody else before each call and
records the run. A call on the cluster requires that the machine makes this call with this
very argument, and `Reconcile` ends with the machine at the returned result, so each
reconcile is a forward simulation and every theorem about runs holds of both reconcilers.

`rules.dfy` and `convert_rules.dfy` are `convertRules`, on values and on the heap.
`uncomment.dfy` is `UncommentCode`. `deepcopy.dfy` is the generated deep copies of the specs.
`heap.dfy` holds the pointer cells and the rule struct that conversion and copies share.

## Assumptions

- One reconcile per key is in flight (one worker per key, one elected leader).
- Users never edit status. Our finalizer may be present from creation; afterwards only the
  controller adds or removes it.
- The cloud hands out non-empty IDs it has not handed out before, and still knows every ID
  it has handed out.
- API server, as in the Kubernetes API Conventions, section "Concurrency Control and
  Consistency": `resourceVersion` rises globally, each write is a compare-and-swap on it, a
  write that changes nothing keeps the version, an acknowledged write replaces the in-memory
  object with the server's copy. The status subresource is on
  (`config/crd/bases/compute.nvcne-demo.io_ociinstances.yaml:211-212`): `Update` ignores
  status and `Status().Update` ignores the rest. `generation` rises on a spec edit and on
  deletion; a deleting object without finalizers vanishes.
- A read may return any version the server ever held; whenever the cache moves, and after a
  restart, the key is queued. A crash is modelled per key, which includes the crash of the
  whole operator.
- The cloud applies the TCP options of a rule to TCP rules only (protocol `6`), and a rule
  without them admits every port. How an address is matched against a CIDR is left open.
- Specs have the kind their CRD gives them.

## Where the code differs from what is said about it

- `README.md:63` of the repository says the reconciler always compares the spec with the
  actual cloud state, drives towards it, and so heals itself. It does so up to creation only,
  and what comes after fails in two ways.
  - An edited spec is never applied: it is sent with the creation call only, while
    ObservedGeneration follows every edit, so a converged object may have a resource made
    from an older spec (`Aftermath.StaleRun`), and no number of reconciles changes that
    (`Drift.RoundsNeverApply`). The resource was made for the current spec exactly as long as
    nobody edited the object after its ID was recorded (`Drift.UpToDateExactly`).
  - A resource that is gone is never replaced: if somebody else terminates it, without any
    edit, the object reports so for ever (`Aftermath.GoneRun`), and once an ID was recorded
    no creation call is issued for the object again (`Duplicates.NeverAgain`). Undisturbed
    reconciles of an object with an ID end ready exactly if the resource is on its way to
    ready by itself (`OffTrack.ConvergesExactly`).
- `README.md:65` of the repository says finalizers prevent orphans. They do, except
  when the write of a fresh ID does not commit (line 234 of the instance controller), the
  operator crashes before it, or creation takes effect and reports an error. Those are the
  only ways (`Safety.LostExactly`), a lost resource stays an orphan for ever
  (`Safety.LostForever`), and any metadata write by anyone is enough (`Witnesses.OrphanRun`).
  They are also the only way to two resources for one object (`Duplicates.TwoMeansLost`).
- `README.md:67` says a Failed object is left alone until its spec changes, and that this
  prevents loops of cloud calls. Once Failed is stored that is so (`Launches.FailedIsFinal`,
  `LaunchBounds.FailedNeverCreates`). But the failure write itself may not commit, and then
  the creation call is repeated (`Witnesses.RelaunchRun`). Two creation calls for one object
  always have between them an edit or a setback (`LaunchBounds.NoRepeat`), and the reconcile
  that made a call is a setback exactly if it leaves the object with neither an ID nor Failed
  (`LaunchBounds.OutcomeExactly`).
- The comment on `setFailedStatus` says refetching avoids conflicts. It reads the cache, so
  the copy can be older than the one the reconcile holds (`Witnesses.RelaunchRun`), and it
  can be newer than what was attempted, in which case a generation nobody tried is marked
  Failed (`Launches.FailureMarksAttempted`, `Witnesses.UnattemptedRun`).
- A security policy is called Active as soon as creation is accepted, whatever the cloud
  says, and may then go back to Creating (`Witnesses.PolicyGoesBack`). While the cloud itself
  does not go back, that is the one way in which a phase does (`Phases.PhaseFallsExactly`).
- A failure reason is never cleared: a ready object may carry one (`Aftermath.RecoveredRun`),
  and an object carries one exactly if a failure was ever written for it
  (`StatusChanges.ReasonExactly`).
- An object becomes Failed exactly by a failure write or by the sync of a lifecycle state no
  case names (`StatusChanges.FailsExactly`). The failure write may be about the operator, not
  the object: a ready object whose resource is untouched becomes Failed when no cloud client
  can be made, as after a restart with a bad configuration (`Aftermath.BlamedRun`). From then
  on reconciles that read it call nothing (`Launches.FailedReadCallsNothing`), so it stays
  Failed when the cloud has recovered (`Aftermath.StuckRun`).
- Port ranges become TCP options whatever the protocol is, and a single bound is dropped;
  such rules admit more in the cloud than they say (`Rules.MeaningKeptExactly`).
- `UncommentCode` truncates the block at a line the scanner cannot hold, and it drops
  carriage returns and a trailing newline (`Uncomment.RoundTripExactly`).

## Model

| member | source | states |
|---|---|---|
| Safety.NoOrphan | internal/controller/ociinstance_controller.go:132-237 | On every run and at every point, a cloud resource is accepted for termination, held by a reconcile between creation and record, or recorded on the stored object of its owner together with our finalizer, if and only if no earlier step lost its ID |
| Safety.LostExactly | internal/controller/ociinstance_controller.go:215-237 | An ID is lost if and only if an earlier step was a creation that took effect but reported an error, or a recording write that did not commit, or a crash while the ID was held |
| Safety.LostForever | internal/controller/ociinstance_controller.go:229-237 | A lost resource is never accepted for termination and its ID never appears on any version of any object, ever after |
| Witnesses.OrphanRun | internal/controller/ociinstance_controller.go:234-237 | For every spec there is a reachable state in which a metadata write between creation and record lost the first ID and the same object owns a second, recorded resource |
| Safety.IdsInjective | internal/controller/ociinstance_controller.go:230-234 | Two stored objects with the same non-empty ID, at any two points of a run and under any keys, are the same object |
| Safety.ObjectEvolves | internal/controller/failable_resource.go:41-52 | Between any two points of a run, an object's ID is write-once, generation and ObservedGeneration never fall, deletion is never undone, a failure reason is never emptied, Failed for a generation is final for it; ObservedGeneration never exceeds generation, and Running, Terminating, Terminated, Active, Deleting, Deleted imply an ID |
| Safety.NoLostWakeup | internal/controller/ociinstance_controller.go:67-325 | In every reachable state, an object that is not settled (Failed for its generation, or deleting without our finalizer) has its key queued, a timer, an error retry, a reconcile in flight, or a cache that is behind |
| Worlds.RunInv | internal/controller/ociinstance_controller.go:56-305 | The whole invariant holds for every key in every state of every run |
| Worlds.ForeignKeeps | internal/controller/ociinstance_controller.go:320-325 | What one key's reconciles do to the shared cloud, clock and losses cannot break the invariant of another key |
| PreservationWrites.StepKeeps | internal/controller/ociinstance_controller.go:67-305 | Every single step, by the user, cache, cloud, a crash or the reconcile, keeps the invariant of its key |
| PreservationWrites.SameVersion | internal/controller/ociinstance_controller.go:180-234 | Compare-and-swap: a held copy whose version number equals the stored one is the stored object |
| Launches.LaunchJustified | internal/controller/ociinstance_controller.go:80-183 | However stale the copy a reconcile started from, it stands at creating for an object only if an earlier step of the same reconcile committed the fence while the server's own object had the finalizer, was not deleting, had no ID and was not Failed for its generation |
| Launches.TallyIsAccount | internal/controller/ociinstance_controller.go:215-237 | The per-object account carried in the state equals what counting creations, edits, setbacks and attempted generations over the run gives |
| LaunchBounds.LaunchBoundBetween | internal/controller/ociinstance_controller.go:96-237 | Between any two points of a run the creation calls for an object, plus one if it is armed at the end, are at most one if it is armed at the start plus its spec edits plus its setbacks in between, however stale the cache |
| LaunchBounds.NoRepeat | internal/controller/ociinstance_controller.go:96-101 | Between any two creation calls for one object lies a spec edit of it or a setback |
| LaunchBounds.OutcomeExactly | internal/controller/ociinstance_controller.go:224-237 | When the reconcile that made a creation call for a still stored object settles it, that step is a setback if and only if the stored object has neither an ID nor the phase Failed |
| LaunchBounds.FailedNeverCreates | internal/controller/ocisecuritypolicy_controller.go:93-98 | From an object that is Failed for its generation on, no creation call is issued for it until its spec is edited, also through its deletion and after it is gone |
| LaunchBounds.CreatesWhileShown | internal/controller/ociinstance_controller.go:177-183 | A creation call is issued while its object, if stored, has no ID and is Provisioning, or Creating for a policy |
| Duplicates.NeverAgain | internal/controller/ociinstance_controller.go:114-120 | Once an object is stored with an ID, no creation call is issued for it for the rest of the run |
| Witnesses.RelaunchRun | internal/controller/failable_resource.go:34-52 | A stale refetch makes the failure write conflict, Failed is not stored and creation is called again; the launch bound is attained with no edit and one setback |
| Launches.FailureMarksAttempted | internal/controller/failable_resource.go:41-52 | A committed failure write after a creation call marks a generation that was attempted if and only if the refetched copy is the same object and generation the call was made for |
| Witnesses.UnattemptedRun | internal/controller/failable_resource.go:41-49 | For any two different specs there is a reachable idle state that is Failed for generation 2 although only generation 1 was ever attempted |
| Launches.FailedIsFinal | internal/controller/ociinstance_controller.go:96-101 | From a stored object that is Failed for its generation, every continuation without a new generation keeps phase, ID and ObservedGeneration and issues no creation call for it |
| Launches.FailedReadCallsNothing | internal/controller/ociinstance_controller.go:96-101 | From a read that returned a Failed, non-deleting object up to the end of that reconcile, whatever happens in between, the key makes no client and no creation, poll or terminate call |
| Deletion.FinalizerRemoval | internal/controller/ociinstance_controller.go:124-170 | Whenever the stored object loses our finalizer or vanishes with it, the user had deleted it, the step is this reconcile's own write, and if it had an ID then this same reconcile earlier had exactly that ID accepted for termination |
| Deletion.TerminateOnlyDeleted | internal/controller/ocisecuritypolicy_controller.go:121-154 | Every terminate call, even from a stale copy, names an ID recorded on a version of an object that owns that resource and that the user has already deleted |
| Deletion.NotTerminatedWhileWanted | internal/controller/ociinstance_controller.go:132-159 | While an object is stored and not deleting, its recorded resource exists and the operator never had it terminated |
| Deletion.OthersKeepTheirs | internal/controller/ociinstance_controller.go:84-93 | Whatever the reconciles write, the finalizers of others stay on the stored object as they were, and an object vanishes by a reconcile only if it is deleting and ours was its only finalizer |
| Returns.ReturnsExactly | internal/controller/ociinstance_controller.go:68-305 | On every run, a reconcile goes on to return an error if and only if the step is a call of its own that fails (read, refetch that finds nothing, unacknowledged write, client for deletion, poll, terminate); a requeue after exactly 30 or 300 seconds if and only if it is the acknowledged recording or sync that asks for that delay; and neither if and only if nothing was to be done for what it read or it is another acknowledged last write |
| Returns.RestsExactly | internal/controller/ocisecuritypolicy_controller.go:68-98 | A woken key with a fresh cache reads, returns, and rests, calling and storing nothing, if and only if there is no object, or it is deleting without our finalizer, or it is Failed for its generation with our finalizer |
| Requests.RecordedAsRequested | internal/controller/ociinstance_controller.go:178-237 | When an ID first appears on a stored object, ObservedGeneration, the generation, and the generation the creation call was made for are all equal, and the request was built from exactly the stored spec: no edit came in between |
| Requests.ObservedCoversRequest | internal/controller/ociinstance_controller.go:230-234 | Ever after, the recorded resource was created for a generation not above ObservedGeneration, and from the stored spec if that generation is still current |
| Recorded.InstanceAsSpecified | internal/controller/ociinstance_controller.go:186-232 | When an instance ID is first recorded, every field of the launch request, flex config and tags included, is that of the spec stored with it |
| Recorded.PolicyAsSpecified | internal/controller/ocisecuritypolicy_controller.go:181-208 | When a security list ID is first recorded, the fields, the tags and the number of rules of the creation request are those of the stored spec, its ingress and egress lists admit every flow the stored rules admit in that direction, and exactly those if the rules are expressible |
| PolicyReconcilers.ListAsSpecified | internal/controller/ocisecuritypolicy_controller.go:181-196 | The same of the request for any spec |
| Phases.SyncTruthful | internal/controller/ociinstance_controller.go:252-295 | Every committed sync stores a phase that says a lifecycle state which the cloud reported for the recorded ID when polled by the same reconcile, ranked as that state is ordered, and keeps the ID |
| Phases.StoredPhaseSeen | internal/controller/ocisecuritypolicy_controller.go:237-262 | A stored Running, Terminating, Terminated, Deleting or Deleted implies an earlier poll under the object's ID that reported exactly the state of that name |
| StatusChanges.PhaseSays | internal/controller/ociinstance_controller.go:265-288 | The phase chosen for a lifecycle state is the one phase that says it, Failed exactly for the states without a phase of their own, and phases rank as the states they stand for are ordered |
| Phases.PhasesAdvance | internal/controller/ocisecuritypolicy_controller.go:204-266 | If the cloud never returns to an earlier stage, then between any two points of a run the phases of an object with an ID, other than Failed, go back if and only if it was Active and is Creating, which only a policy can be; through stale copies, failures and edits |
| Phases.PhaseFallsExactly | internal/controller/ocisecuritypolicy_controller.go:237-248 | On such a run a step takes a phase back if and only if it commits the sync of a PROVISIONING list on an Active policy, and that list had never been past PROVISIONING when it was polled |
| Phases.SyncedNeverBack | internal/controller/ocisecuritypolicy_controller.go:237-266 | On such a run, once a sync has stored a phase, no later phase of the object but Failed is behind it |
| Witnesses.PolicyGoesBack | internal/controller/ocisecuritypolicy_controller.go:204-248 | With the cloud reporting PROVISIONING throughout, a reachable policy is Active and then Creating |
| Convergence.Rouses | internal/controller/ociinstance_controller.go:241-304 | Whenever a reachable object is idle, not settled and on track, a watch event, a queue entry, a requeue timer or a retry is due that wakes it with a fresh cache |
| Convergence.RoundProgress | internal/controller/ociinstance_controller.go:84-120 | From every idle reachable state of an object neither Failed nor deleting whose resource, if any, is on its way to ready, waking by what is due and one undisturbed reconcile, with creation starting on that way, strictly lowers the measure (finalizer missing, ID missing, cloud distance, status out of date); at zero it changes neither store nor cloud and leaves a timer |
| Convergence.Converges | internal/controller/ociinstance_controller.go:229-304 | After at most seven such rounds the object is converged, and from a converged state any number of rounds leaves its versions and the cloud exactly as they are |
| Drift.ConvergedMeans | internal/controller/ociinstance_controller.go:266-302 | A converged object has the finalizer, a recorded resource, the ready phase that the cloud reports, and its generation observed; its resource was made for that generation if and only if no edit followed the recording of its ID, and then from its spec |
| Drift.UpToDateExactly | internal/controller/ociinstance_controller.go:186-232 | On every run, the resource of a non-deleting object was created for its current generation, hence from its current spec, if and only if no spec edit happened since the step that recorded the ID |
| Drift.BehindByEdits | internal/controller/ociinstance_controller.go:230-290 | The recorded resource keeps the request it was recorded with, and the object's generation exceeds the one it was made for by exactly the edits since, plus one if it is deleting |
| Drift.ObservedAhead | internal/controller/ociinstance_controller.go:290-292 | ObservedGeneration passes the generation the resource was created for if and only if a sync or a failure write was committed for a later generation |
| Drift.RecordedBefore | internal/controller/ociinstance_controller.go:229-237 | Every stored object with an ID had it recorded at some step of the run |
| Drift.RoundsNeverApply | internal/controller/ocisecuritypolicy_controller.go:220-269 | From any idle state at peace, no number of undisturbed rounds changes the spec, the generation, or the request of an existing resource |
| OffTrack.ConvergesExactly | internal/controller/ociinstance_controller.go:263-304 | From every idle reachable state of an object with an ID, neither Failed nor deleting, seven or more undisturbed rounds end converged if and only if the resource was on its way to ready; otherwise its state is shown for the current generation and the cloud is left as it is |
| OffTrack.StaysOffTrack | internal/controller/ocisecuritypolicy_controller.go:249-268 | Around a resource off that way, any number of rounds leaves the cloud alone, shows the state from the first round on, and then changes nothing |
| Aftermath.GoneRun | internal/controller/ociinstance_controller.go:279-295 | For every spec a state is reachable in which an unedited, undeleted object of generation 1 reports that its resource, made for it and never terminated by the operator, is terminated |
| Aftermath.StaleRun | internal/controller/ociinstance_controller.go:266-295 | For any two different specs a converged state is reachable whose spec is the second, generation 2 and observed, on a resource of generation 1 requested from the first |
| Duplicates.TwoMeansLost | internal/controller/ociinstance_controller.go:180-237 | On every run, two different resources of one object imply an earlier step that lost one of them |
| StatusChanges.ReasonExactly | api/v1alpha1/ociinstance_types.go:178-181 | On every run, a stored object has a failure reason if and only if a failure write for it was committed before |
| StatusChanges.FailsExactly | internal/controller/ocisecuritypolicy_controller.go:255-265 | A step makes a stored object Failed if and only if it commits a failure write or the sync of a lifecycle state without a phase of its own |
| Aftermath.RecoveredRun | internal/controller/failable_resource.go:46-52 | After a failure and an edit, a ready object with its generation observed and a non-empty failure reason is reachable |
| Aftermath.StuckRun | internal/controller/ociinstance_controller.go:285-295 | A state is reachable in which the object is Failed for its generation while the cloud reports its resource ready |
| Aftermath.BlamedRun | internal/controller/ociinstance_controller.go:104-110 | From a reachable converged object, steps without any user and with the cloud unchanged lead to Failed for the current generation, by one failure to make a client |
| Clusters.Cluster.Take | internal/controller/ociinstance_controller.go:320-325 | One step of the machine, appended to the recorded run, which stays a run; no other key's state changes |
| Clusters.Cluster.Interfere | internal/controller/ociinstance_controller.go:320-325 | Any number of steps of users, cache, cloud and other keys, none of which moves this key's reconcile |
| Clusters.Cluster.Get | internal/controller/ociinstance_controller.go:68-77 | A cache read of any age leaves the machine where the protocol goes with exactly the object returned |
| Clusters.Cluster.Write | internal/controller/ociinstance_controller.go:84-93 | Only the object the machine would send may be sent; an acknowledged status write returns that object under a new version number |
| Clusters.Cluster.Create | internal/controller/ociinstance_controller.go:215-230 | Only the request for the fenced spec may be sent; the machine then holds exactly the returned ID, and an error leads to the refetch with the reported reason |
| Clusters.Cluster.Poll | internal/controller/ociinstance_controller.go:250-263 | Only the recorded ID may be polled; a reply moves the machine to syncing exactly that lifecycle state, an error ends the reconcile in a retry |
| Clusters.Cluster.Terminate | internal/controller/ociinstance_controller.go:147-158 | Only the ID of the held deleted object may be terminated; success is the only way on to removing the finalizer |
| ApiObjects.ApiObject.SetFailedStatus | api/v1alpha1/ociinstance_types.go:178-181 | Sets phase and reason in place and leaves every other field as it was |
| ApiObjects.ApiObject.SetObservedGeneration | api/v1alpha1/ocisecuritypolicy_types.go:163-166 | Sets ObservedGeneration in place and leaves every other field as it was |
| ApiObjects.SetFailedStatus | internal/controller/failable_resource.go:37-55 | Follows the machine from refetch to return; on success the object in hand is Failed for its own generation with the given reason |
| InstanceReconcilers.OCIInstanceReconciler.Reconcile | internal/controller/ociinstance_controller.go:57-121 | Simulates the machine: from the dequeued key, under any interference, to exactly the returned result, extending the run; with a client at hand it never fails to make one |
| InstanceReconcilers.OCIInstanceReconciler.HandleDeletion | internal/controller/ociinstance_controller.go:124-170 | The same for the deletion path, from the dispatched copy |
| InstanceReconcilers.OCIInstanceReconciler.BuildLaunchDetails | internal/controller/ociinstance_controller.go:185-213 | Each field of the request equals the field of that name in the spec, flex config is there with both parsed sizes exactly when both are given, and all tags |
| InstanceReconcilers.OCIInstanceReconciler.ReconcileNew | internal/controller/ociinstance_controller.go:173-243 | From the fence write to the returned result, on the machine |
| InstanceReconcilers.OCIInstanceReconciler.ReconcileExisting | internal/controller/ociinstance_controller.go:246-305 | From the poll to the returned result and delay, on the machine |
| InstanceReconcilers.OCIInstanceReconciler.Sync | internal/controller/ociinstance_controller.go:265-304 | On success the object has the phase that says the polled state, the generation is observed unless it is Provisioning, and the requeue is 300 seconds for RUNNING and 30 otherwise |
| InstanceReconcilers.OCIInstanceReconciler.Ensure | internal/controller/ociinstance_controller.go:103-120 | A client, once made, is kept; if none can be made and that is stored, the object is Failed with a reason that says so |
| PolicyReconcilers.OCISecurityPolicyReconciler.Reconcile | internal/controller/ocisecuritypolicy_controller.go:56-118 | The same machine, configured for policies, is simulated from the dequeued key to exactly the returned result; with a client at hand it never fails to make one |
| PolicyReconcilers.OCISecurityPolicyReconciler.HandleDeletion | internal/controller/ocisecuritypolicy_controller.go:121-165 | The same for the deletion path, from the dispatched copy |
| PolicyReconcilers.OCISecurityPolicyReconciler.BuildListDetails | internal/controller/ocisecuritypolicy_controller.go:180-196 | Each field of the request equals the field of that name in the spec; the ingress list admits the flows the rules admit in, the egress list those out; no rule is lost |
| PolicyReconcilers.OCISecurityPolicyReconciler.ReconcileNew | internal/controller/ocisecuritypolicy_controller.go:168-217 | From the fence write to the returned result, on the machine |
| PolicyReconcilers.OCISecurityPolicyReconciler.ReconcileExisting | internal/controller/ocisecuritypolicy_controller.go:220-269 | From the poll to the returned result and delay, on the machine |
| PolicyReconcilers.OCISecurityPolicyReconciler.Sync | internal/controller/ocisecuritypolicy_controller.go:237-268 | On success the object has the phase that says the polled state, the generation is observed unless it is Creating, and the requeue is 30 seconds for PROVISIONING and 300 otherwise |
| RuleConversion.ConvertRules | internal/controller/ocisecuritypolicy_controller.go:272-317 | The two slices hold the converted rules of each direction in list order; every cell they point to is fresh, shared neither between fields, rules or slices nor with the port pointers of the rules given, whose values stay |
| Rules.SideConcat | internal/controller/ocisecuritypolicy_controller.go:276-314 | Conversion of each side is a list homomorphism |
| Rules.MergeUndoesSplit | internal/controller/ocisecuritypolicy_controller.go:276-316 | Dealing the two lists back out by the original directions rebuilds every converted rule at its own place; the lengths sum |
| Rules.RulesRestoredExactly | internal/controller/ocisecuritypolicy_controller.go:276-316 | The two lists and the directions give back the CRD rules field by field if and only if every rule has a known direction, both ports or neither, and no address for the other side |
| Rules.NeverNarrower | internal/controller/ocisecuritypolicy_controller.go:284-312 | Whatever flow a rule list admits, the produced lists admit |
| Rules.MeaningKept | internal/controller/ocisecuritypolicy_controller.go:272-317 | For rules of known direction that are TCP with both ports, or whose ports say nothing, a flow is admitted by the CRD rules if and only if it is admitted by the produced lists |
| Rules.MeaningKeptExactly | internal/controller/ocisecuritypolicy_controller.go:284-312 | One rule keeps its meaning for every flow if and only if it is such a rule |
| Uncomment.IndexFromFirst | test/utils/utils.go:187-190 | The search finds the first occurrence, or there is none |
| Uncomment.UncommentCode | test/utils/utils.go:178-226 | The scanner loop computes the spliced text, the missing-target error or the untouched file |
| Uncomment.Frame | test/utils/utils.go:187-217 | The error comes exactly when the target does not occur, the file stays untouched exactly when nothing is scanned; otherwise everything before and after the first occurrence is kept and in its place stand the scanned lines, each without the prefix if it has it and as it is if not |
| Uncomment.UnchangedExactly | test/utils/utils.go:198-213 | If no line of the target starts with the prefix, the file keeps its text if and only if every line fits the scanner, none ends in a carriage return, and the last is not empty |
| Uncomment.ScansExactly | test/utils/utils.go:198-213 | The scanner yields the lines up to one of 65536 characters or an empty last one, each without a single trailing carriage return |
| Uncomment.RestoredExactly | test/utils/utils.go:198-213 | Scanning and trimming commented lines gives the lines back if and only if each fits the scanner and loses no carriage return, and an unprefixed block has no empty last line |
| Uncomment.RoundTripExactly | test/utils/utils.go:187-217 | Prefixing every line of a block and uncommenting restores the file if and only if the block's lines are such, provided the commented block does not occur earlier |
| Uncomment.SplitUndoesJoin | test/utils/utils.go:198-213 | Splitting a text joined from newline-free lines gives the lines back |
| DeepCopies.CopyRuleInto | api/v1alpha1/zz_generated.deepcopy.go:252-264 | The slot gets an equal rule whose ports are fresh and not shared; no other slot changes |
| DeepCopies.OCISecurityPolicySpec.DeepCopyInto | api/v1alpha1/zz_generated.deepcopy.go:201-217 | The copy equals the source and is nil where it is nil; it reaches fresh memory only, nothing in common with the source, and no port is shared between rules; copied onto itself a spec loses its rules' contents and its tags |
| DeepCopies.OCIInstanceSpec.DeepCopyInto | api/v1alpha1/zz_generated.deepcopy.go:88-107 | The copy equals the source and reaches fresh memory only, nothing in common with the source; copied onto itself a spec loses its sizes and tags |
| DeepCopies.OCISecurityPolicySpec.WritesStayPrivate | api/v1alpha1/zz_generated.deepcopy.go:201-217 | Any writes confined to one spec and what it reaches leave the value and the reach of one that reaches nothing in common, as source and copy do, unchanged |
| DeepCopies.OCIInstanceSpec.WritesStayPrivate | api/v1alpha1/zz_generated.deepcopy.go:88-107 | The same for instance specs |

## Left out

- Metrics and logging: counters rise on every poll and before the write they announce, so they count no real transition.
- The OCI SDK, Kubernetes client internals, configuration providers and client construction: calls that succeed or fail with any text.
- A creation response without an ID: the code would panic there; the cloud is assumed to return one.
- `strconv.ParseFloat` and float32 rounding: a function parameter `parse`; its ignored errors are part of that function.
- CRD validation bounds: enforced by the API server; directions are a precondition only where the meaning of rules is compared.
- Private and public IP fields, Conditions, and the Pending and Updating phases: the code never writes them.
- Completion of deletion: it depends on the cloud accepting a repeated terminate call, which the code does not secure.
- Growth of time: delays are compared as values, and a pending timer may fire at any moment.
- The operator restarting without a crash step of each key, and status edits or finalizer removal by users: excluded by the assumptions above.
- `GetNonEmptyLines` and the cluster helpers of the same file: no further property of interest.
- File reading and writing around `UncommentCode`; text is a sequence of characters, one per byte.
- Deep copies of statuses, lists and object metadata, and slice capacity: the same pattern as the specs, without pointers the reconcilers write through.
- `reconcileNew`, `reconcileExisting` and `Reconcile` are each split into a few methods, one per stretch between calls; the order of statements is that of the source.
- The client a reconciler holds is a flag: whether one is injected or already made.
- Decoding an object into memory: `InMemory` lays out the rules of a policy value for the conversion loop.
