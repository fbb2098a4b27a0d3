# FusionInfer: a verified model

A Dafny 4.11 model of the hard parts of FusionInfer, with proofs. Everything is checked by
`dafny verify dfyconfig.toml`; no proof rests on an assumption that is not written as a `requires`.

Four cores are modelled.

1. **The InferenceService reconciler.** `Cluster.ApiServer` is the API server as the controller sees it: a
   mutable map from keys to labelled objects in which the n-th call fails before taking effect, after taking
   effect, or not at all, for *any* fault function. `Controller.Reconciler` is `Reconcile` with all its helpers,
   step by step against that server. Its contract is a log of calls, and `Convergence` is a theory of such logs
   that does not know who builds the objects: a *plan* (desired objects, names per role, the PodGroup to have
   first), the set of *unsettled* keys, and moves that settle one key each. `Planning` shows that what the
   builders produce is such a plan; `PassProgress` shows that an error-free pass leaves nothing unsettled; `Gang`
   joins the two independent builders (PodGroup and LeaderWorkerSet), and `Versions` follows whole runs over
   changing specs. `Scheduling` and `Workload` are the builders, the second one on heap objects because the source
   aliases one label map three times. `Observation`, `Status` and `Conditions` are the status phase.
   `Controller.Reconciler.ReconcileEach` calls `Reconcile` any number of times for one version of the service, and
   `WorkQueue.ReconcileEdits` while users edit it; they carry the results about runs over to the class. `Outcome`,
   `Built` and `RouterFacts` say what a pass leaves and what the objects contain in terms of the stored objects, the
   fields of a spec and literal names alone, without the definitions that the proofs above rest on.
2. **The shared informer factory.** `Informers` is a state machine in which each lock, WaitGroup, goroutine and
   map operation of `Start`, `Shutdown`, `InformerFor` and `WaitForCacheSync` is one atomic step and any number
   of threads interleave. `InformerFactory` has the methods themselves and shows that each is a run of those
   steps; `InformerProgress` shows that the machine never gets stuck and bounds the steps until all calls return.
3. **The source-URI rules of a Model.** `Regex` gives the regular expressions a meaning, `ModelUri` has the
   rules as they stand and the grammar they amount to, and `UriForms` states admission without expressions: which
   characters and pieces a host, tag, digest, name or prefix has.
4. **The Markdown heading check.** `HeadingLines` ties the tests on single lines, and what they capture, to the
   script's regular expressions and to CommonMark; `Headings` has the one-pass scanner and a declarative definition
   of what it should find; `HeadingPairs` has the pair check. `MarkdownForms` states the shapes of lines, front matter
   and ids in terms of characters and positions, `PairReports` what is reported on a file in terms of its headings.

Hypotheses that the code does not enforce and the theorems name:

- `Admissible(svc)`: workload role names are distinct, there is at most one router role, and a multi-node role
  has a container to wrap.
- `Named(ns, service, store)`: a LeaderWorkerSet labelled for the service and a role bears a name the service
  gives to that role. Every pass, failed or not, keeps this (`Planning.TraceKeepsNamed`).
- `!Collides` at the keys a result speaks of: no object is stored there that differs from the built one under an
  equal hash label. `Mergeable`: the Deployment selector and the Service type, which an update does not rewrite, are
  the built ones; LeaderWorkerSets and PodGroups always meet this. `Convergence.ConvergesIff` shows that the two
  together are exactly what it takes for a stored object to equal the built one.
- A service has a non-empty name, in the gang results only: without one the builder writes no annotation.
- `BuiltStore` and `HashTells`, in `Versions` and `WorkQueue` only: what is stored under the service's keys was built
  for some version of it, and the hash tells apart the payloads that these versions hash. The first holds of an empty
  cluster and is kept by every call of every pass of every version (`Versions.MoveKeepsBuilt`); together they give
  `!Collides` and `Mergeable` for the next pass (`Versions.NothingCollides`).

Replica counts may be negative, and int32 and int64 arithmetic wraps; bounds appear only where a result is about
the unwrapped number.

Where code and prose differ, the model follows the code:

- The comment on cleanup speaks of sets that are no longer needed; sets of a role removed from the spec are never
  listed, so they stay. `Gang.RemovedRolesStay` says exactly which unwanted sets a pass deletes, and
  `Gang.DroppedRoleStays` gives a service that drops a role.
- `firstMismatchIndex` reads like equality of two sequences but takes a trailing missing id for the end of the
  list; `HeadingPairs.AgreeIffTrimmedEqual` says what it decides, `AgreeEqualIffSameLength` what is left to check for
  equality, and `TrailingMissingIdsCompareEqual` gives an input; `DecidesEqualityIff` says when it does decide it.
- The heading scanner opens a backtick fence whose info string holds a backtick, which section 4.5 of CommonMark
  0.31.2 does not, and no fence whose info string holds U+2028 or U+2029, which CommonMark does.
  `HeadingLines.FenceTestsAgreeIff` shows for every line of CommonMark that the two tests differ in nothing else. The
  lines themselves differ where a carriage return stands alone, which ends a line by section 2.1 and not in the
  script; `HeadingLines.SplitsAgreeIff` shows that only such a carriage return makes a difference. `FenceTestsDiffer`
  gives an input for each of the three.
- The URI rule on queries and fragments is implied by the rule on characters (`ModelUri.QueryRuleImplied`).
- LeaderWorkerSet names are injective for one service but not across services: two services can meet exactly if one
  name with a dash behind it begins the other's (`Workload.NamesSharedIff`).

## Model

| member | source | states |
|---|---|---|
| Controller.Reconciler.Reconcile | pkg/controller/inferenceservice_controller.go:66-156 | A pass that does not fetch its service changes nothing; one that does makes only allowed moves, stops owned-object work at the first failed call, leaves nothing unsettled if none failed, and stores the status computed from what it then read unless the write was lost; it succeeds exactly if no call on owned objects and not the status write failed, and then the stored Active condition is true exactly if every set was seen ready |
| Controller.Reconciler.ReconcileFetched | pkg/controller/inferenceservice_controller.go:80-155 | The same for a fetched service, with the error of the pass tied to its call log and to the faults of its calls |
| Controller.Reconciler.ReconcilePlan | pkg/controller/inferenceservice_controller.go:88-132 | Steps 3 to 6 are one pass log for the plan of this service version, and keep the store's naming hypothesis |
| Controller.Reconciler.ReconcileOwned | pkg/controller/inferenceservice_controller.go:88-132 | Without error the PodGroup, every workload role and the router are all settled at the end, nothing having been unsettled by a later step |
| Controller.Reconciler.ReconcilePodGroup | pkg/controller/inferenceservice_controller.go:161-199 | Without error the PodGroup, if the plan has one, needs no further write |
| Controller.Reconciler.Ensure | pkg/controller/inferenceservice_controller.go:365-588 | The common get, create, update-if-the-hash-differs shape: on success its key is settled; in all cases the store is as before or differs by the one write that settles this key |
| Controller.Reconciler.ReconcileReplicas | pkg/controller/inferenceservice_controller.go:203-275 | Without error every replica 0..replicas-1 is settled and the returned names are exactly theirs |
| Controller.Reconciler.CleanupOrphanLWS | pkg/controller/inferenceservice_controller.go:277-310 | Without error no set labelled for the role has a name outside the desired ones |
| Controller.Reconciler.ReconcileRouter | pkg/controller/inferenceservice_controller.go:313-363 | Without error all eight router objects are settled at once |
| RouterFacts.RouterWanted | pkg/controller/inferenceservice_controller.go:313-363 | Beside PodGroup and sets a service wants eight objects under literal names if it has a router role, and no other |
| RouterFacts.RouterMeans | pkg/router/epp.go:58-361 | What each of the eight contains: identity, binding, configuration, Deployment template and selector, Service, pool and route, all in the names of this service |
| RouterFacts.LabelsMean | pkg/router/epp.go:58-361 | Their labels: the service, the hash of the content, constant for a ServiceAccount, and the app name for the Deployment |
| RouterFacts.ConfigMeans | pkg/router/strategy.go:27-49 | The user's own EndpointPickerConfig or the one of the strategy; disaggregation needs a prefiller and a decoder, and the rest is the prefix cache |
| RouterFacts.RouterWired | pkg/router/httproute.go:37-92 | Whatever a router object refers to, by name and namespace, is itself in the plan |
| RouterFacts.PoolSelectsLeaders | pkg/router/inferencepool.go:81-104 | Of all pods of a service's own sets, of whatever role and replica, the pool selects exactly the leaders |
| RouterFacts.PoolSelectsOwn | pkg/router/inferencepool.go:81-104 | and no pod of another service |
| RouterFacts.ServiceSelectsIff | pkg/router/epp.go:215-258 | The EPP Service selects the pods of its own service's Deployment and of no other |
| Controller.Reconciler.AggregateLwsStatus | pkg/controller/inferenceservice_controller.go:639-686 | The loop's counters, with 32-bit wrap-around, are the aggregate of one reading per index, failed gets being skipped |
| Controller.Reconciler.UpdateComponentStatusInMemory | pkg/controller/inferenceservice_controller.go:592-622 | The components are those of the workload roles, each from its own readings |
| Controller.Reconciler.WriteStatus | pkg/controller/inferenceservice_controller.go:134-155 | One status write; the stored status is the old one updated by the pass's outcome |
| Controller.Reconciler.ReconcileEach | pkg/controller/inferenceservice_controller.go:66-156 | Any number of calls for one version, failing anywhere and reading any set statuses: whenever the last one returns no error the owned objects are the target of the first store; it returns none if no API call of its own fails; and the stored status is that of the whole history of passes, lost writes included |
| PassProgress.NothingLeft | pkg/controller/inferenceservice_controller.go:88-132 | A pass whose steps all finished leaves no desired object missing or stale and no orphan |
| PassProgress.PassEnds | pkg/controller/inferenceservice_controller.go:88-132 | Hence its log keeps every promise the convergence theory asks of a pass |
| PassProgress.OneMorePass | pkg/controller/inferenceservice_controller.go:66-156 | A kept pass extends any run of kept passes, and if it had no error ends in the target of the store the run began with |
| Convergence.HistoryIndependence | pkg/controller/inferenceservice_controller.go:66-156 | Any failed passes, then one error-free pass, end in exactly the store of one error-free pass from the start |
| Planning.ServiceHistoryIndependence | pkg/controller/inferenceservice_controller.go:66-156 | The same for the plan of a service, and whatever is neither desired nor an orphan keeps its value |
| Convergence.BystandersUntouched | pkg/controller/inferenceservice_controller.go:203-310 | No run of passes, failed or not, touches an object that is neither desired nor an orphan |
| Convergence.ExactWork | pkg/controller/inferenceservice_controller.go:179-307 | An error-free pass writes exactly once per missing or stale desired object and per orphan, and ends in the target |
| Convergence.SettleShrinks | pkg/controller/inferenceservice_controller.go:240-307 | Each effective write takes exactly its own key off the work list |
| Convergence.TraceKeeps | pkg/controller/inferenceservice_controller.go:66-156 | At every point of any pass the target is unmoved and the work left has fallen by the writes made |
| Convergence.Fixpoint | pkg/controller/inferenceservice_controller.go:66-156 | The pass after an error-free one writes nothing |
| Planning.ServiceExactWork | pkg/controller/inferenceservice_controller.go:179-307 | Both, for the plan of a service |
| Convergence.ConvergesIff | pkg/controller/inferenceservice_controller.go:191-197 | After an error-free pass a desired key holds the desired labels and spec if and only if its stored hash did not collide and an update could install them |
| Convergence.RolesCompose | pkg/controller/inferenceservice_controller.go:99-117 | For all current roles at once the listed sets are exactly the desired ones, whatever happens at other keys |
| Convergence.CleanupIff | pkg/controller/inferenceservice_controller.go:277-310 | Of the listed sets nobody wants, an error-free pass deletes exactly those labelled with a current role; the others keep their value |
| Convergence.CleanPassHitsTarget | pkg/controller/inferenceservice_controller.go:66-156 | After any passes from a store, failed or not, an error-free one ends in the target of that first store |
| Outcome.TargetLeaves | pkg/controller/inferenceservice_controller.go:179-588 | What that target is, key by key: a missing desired object as desired; a stored one with its hash label unless it is a ServiceAccount, rewritten exactly if the label differed, keeping only a Deployment selector and a Service type; unwanted sets of current roles gone; everything else as it was |
| Outcome.CleanPassLeaves | pkg/controller/inferenceservice_controller.go:179-588 | An error-free pass leaves every key so |
| Outcome.NoneStale | pkg/controller/inferenceservice_controller.go:179-588 | After it every desired object is there and, unless it is a ServiceAccount, carries the desired hash label |
| Outcome.CleanPassWrites | pkg/controller/inferenceservice_controller.go:179-588 | It writes as often as there are missing objects, objects other than ServiceAccounts under another hash label, and unwanted sets of current roles, together |
| Outcome.OrphanIff | pkg/controller/inferenceservice_controller.go:275-310 | What is deleted: a set in the namespace, labelled for the service and a current role, that is not itself desired |
| Outcome.ServiceLeaves | pkg/controller/inferenceservice_controller.go:66-156 | Whatever failed before it, the first error-free pass for a version of a service leaves every key so |
| Outcome.ServiceWrites | pkg/controller/inferenceservice_controller.go:179-588 | and the count for a service |
| Outcome.TargetOfLeaves | pkg/controller/inferenceservice_controller.go:66-156 | Repeated calls of one version end there |
| Planning.PlanIsOk | pkg/controller/inferenceservice_controller.go:203-310 | What the builders produce for an admissible service is a plan the theory applies to |
| Planning.DesiredLwsKeys | pkg/controller/inferenceservice_controller.go:217-233 | The desired sets are named after the replicas of the workload roles, no more and no fewer |
| Planning.DesiredLwsAt | pkg/controller/inferenceservice_controller.go:217-233 | A later role never overwrites an earlier role's desired set |
| Planning.NamedIsCoherent | pkg/controller/inferenceservice_controller.go:285-299 | No set listed for one current role bears a name that another current role wants |
| Planning.TraceKeepsNamed | pkg/controller/inferenceservice_controller.go:203-310 | The naming hypothesis survives every prefix of every pass |
| Workload.LwsNameInjective | pkg/workload/lws.go:259-265 | For one service, (role, index) to name is injective, through decimal printing |
| Workload.NamesSharedIff | pkg/workload/lws.go:259-265 | Two services share a set name, for some roles and indices, if and only if one service name followed by a dash is a prefix of the other followed by a dash |
| Workload.LwsNameSharedAcrossServices | pkg/workload/lws.go:259-265 | An instance: services `a` and `a-b` |
| Text.DecimalRoundTrip | pkg/workload/lws.go:264 | Decimal printing can be read back |
| Text.DecimalIff | pkg/workload/lws.go:264 | A text is what is printed for n if and only if it is the digits that read n without a leading zero |
| Text.DashedInjective | pkg/scheduling/podgroup.go:197-202 | A name, a dash and a printed number determine both |
| Gang.ServiceRolesCompose | pkg/controller/inferenceservice_controller.go:203-310 | After an error-free pass the sets labelled (service, role) are exactly service-role-i for i below the replica count |
| Gang.ReplicaInstalled | pkg/controller/inferenceservice_controller.go:235-262 | and each holds the labels and the spec built for its index |
| Gang.CleanPassInstalls | pkg/controller/inferenceservice_controller.go:179-588 | After an error-free pass any desired object is stored as built if and only if it did not collide and could be installed; sets and PodGroups always can |
| Gang.RemovedRolesStay | pkg/controller/inferenceservice_controller.go:277-310 | An unwanted set labelled (service, r) survives an error-free pass, unchanged, if and only if no current workload role is called r |
| Gang.DroppedSetStays | pkg/controller/inferenceservice_controller.go:277-310 | A set that one version installs outlives, unchanged, an error-free pass of any later version without its role |
| Gang.DroppedRoleStays | pkg/controller/inferenceservice_controller.go:277-310 | A concrete service whose second role is dropped keeps that role's set |
| Gang.GangTotal | pkg/workload/lws.go:107-114 | Every gang-annotated set of a current role carries a task |
| Gang.GangIntegrity | pkg/scheduling/podgroup.go:101-156 | A gang-annotated set names the service's PodGroup, its task is a key of minTaskMember, and the value is the set's size |
| Gang.GangComplete | pkg/scheduling/podgroup.go:124-131 | Every key of the stored minTaskMember is carried by some set of a current role |
| Gang.GangInjective | pkg/workload/lws.go:107-114 | No two sets carry the same task |
| Gang.NoGangNoAnnotation | pkg/scheduling/podgroup.go:53-85 | Without need for gang scheduling no current role's set is annotated |
| Gang.ReplicaAnnotations | pkg/controller/inferenceservice_controller.go:218-230 | The annotations BuildLWS writes for a replica agree with the PodGroup's name, task key and node count |
| Gang.RunKeepsAnchored | pkg/controller/inferenceservice_controller.go:88-117 | At every API step of every run, over changing specs and failures in mid-pass, an annotated set's PodGroup exists in its namespace |
| Gang.TaskListedBeforeWrite | pkg/controller/inferenceservice_controller.go:88-117 | When a set with a task is written, the PodGroup already lists that task with the set's size |
| Versions.MoveKeepsBuilt | pkg/controller/inferenceservice_controller.go:179-588 | Over changing specs, no API call of any version ever leaves at a wanted key an object that was not built whole for some version |
| Versions.SameHashSameObject | pkg/controller/inferenceservice_controller.go:191-197 | For every kind, objects built for two versions at one key with equal hash labels are equal, if the hash tells these versions' payloads apart |
| Versions.NothingCollides | pkg/controller/inferenceservice_controller.go:191-197 | So the next pass of any version meets no collision and can install every object |
| Versions.RunInstalls | pkg/controller/inferenceservice_controller.go:66-156 | After each error-free pass of a run over changing specs with failures anywhere, every object of that version is stored exactly as built |
| Versions.RunGangWhole | pkg/scheduling/podgroup.go:101-156 | and its annotated sets and the PodGroup's tasks are in bijection, sizes included |
| Versions.RunListsTaskFirst | pkg/controller/inferenceservice_controller.go:88-117 | At every call of such a run, also of failing passes, that writes a set with a task, the PodGroup already lists the task with the set's size |
| WorkQueue.ReconcileEdits | pkg/controller/inferenceservice_controller.go:66-156 | Any number of calls over a service that users edit in between, failing anywhere: a last call without a failed API call returns no error; whenever it returns none, everything its version wants is stored as built and the gang is whole; at every API call in between an annotated set's PodGroup exists; the stored status is that of the history |
| WorkQueue.LastPassWhole | pkg/controller/inferenceservice_controller.go:66-156 | What the last error-free pass of a run leaves: all objects of its version as built, sets and tasks in bijection |
| Scheduling.IsPDDisaggregated | pkg/scheduling/podgroup.go:33-47 | The flag loop decides whether both a prefiller and a decoder exist |
| Scheduling.NeedsGangScheduling | pkg/scheduling/podgroup.go:53-70 | The service needs gang scheduling exactly if some non-router role does by its own test |
| Scheduling.BuildPodGroup | pkg/scheduling/podgroup.go:101-156 | The nested loops build the PodGroup of the specification: wrapped pod count, one task per replica, summed resources, hash |
| Built.PodGroupMeans | pkg/scheduling/podgroup.go:101-156 | Its labels, and its tasks: name-i for each replica of each role that takes part, with that role's nodes, and no other; minMember is their sum modulo 2^32. With a prefiller and a decoder exactly these take part, otherwise every non-router role of two nodes or more |
| Built.PodGroupWanted | pkg/scheduling/podgroup.go:53-92 | A service wants a PodGroup, under its own name, if and only if some role takes part |
| Built.Wrap64IsCongruent | pkg/scheduling/podgroup.go:159-190 | The 64-bit products behind minResources are exact modulo 2^64 |
| Built.DisaggregatedExample | pkg/scheduling/podgroup.go:84-100 | The example of the source: one prefiller of 2 nodes and two decoders of 4 give minMember 10 and the tasks prefill-0, decode-0 and decode-1 |
| Scheduling.AddTasks | pkg/scheduling/podgroup.go:124-131 | One role's replicas add nodeCount each to the member count and one task entry each |
| Scheduling.ResourceList.AddRoleResources | pkg/scheduling/podgroup.go:159-190 | In-place accumulation equals the sum over containers, in any order of the limits map |
| PodGroupFacts.TaskMembersSpec | pkg/scheduling/podgroup.go:124-131 | The task map has exactly one entry per gang role and replica, with that role's node count |
| PodGroupFacts.TaskMembersSum | pkg/scheduling/podgroup.go:124-131 | Its values add up to replicas times nodes over the gang roles |
| PodGroupFacts.MinMemberCountsTasks | pkg/scheduling/podgroup.go:105-131 | minMember is the sum of the task values if and only if that sum fits 32 bits |
| PodGroupFacts.NoIntermediateOverflow | pkg/scheduling/podgroup.go:127-134 | If the total fits, so does every running sum and every replicas*nodeCount product |
| PodGroupFacts.ResourceAccounting | pkg/scheduling/podgroup.go:109-190 | minResources names exactly the limited resources of gang containers; each amount is within one unit per (container, pod) of the exact demand, and not below it unless some limit is a negative fraction |
| PodGroupFacts.OrderIrrelevant | pkg/scheduling/podgroup.go:101-156 | Permuting the roles leaves the whole PodGroup spec unchanged |
| Workload.BuildLWS | pkg/workload/lws.go:73-165 | The heap construction yields the specified object; the three label maps are one; leader and worker pod specs are disjoint |
| Built.ReplicaMeans | pkg/workload/lws.go:73-187 | The set of a replica: one replica of as many pods as the role has nodes, five labels also on its pods, the gang's annotations and the volcano scheduler exactly if the role takes part, and the template's own scheduler and containers otherwise |
| Built.WithoutIndex | pkg/workload/lws.go:89-93 | Without a replica index the set has the role's own replica count |
| Built.ReplicaWanted | pkg/controller/inferenceservice_controller.go:203-262 | A service wants one set for each replica of each role but the router, under the name service-role-i, and each is built for its own role and index |
| Built.RolePods | pkg/controller/inferenceservice_controller.go:203-310 | After an error-free pass, short of hash collisions, the pods of the sets stored for a role are its replicas times its nodes |
| Built.GangRolePods | pkg/controller/inferenceservice_controller.go:203-310 | and for a role that takes part that is the sum of its task values in the stored PodGroup |
| Workload.LwsObject.SetHashLabel | pkg/workload/lws.go:160-162 | One write through the shared map shows in the object and in both templates |
| Workload.SplitLeader | pkg/workload/lws.go:146-158 | The leader is built over the same label and annotation maps with its own pod spec |
| Workload.WrapLeaderContainer | pkg/workload/lws.go:189-231 | Only container 0 is rewritten, in place |
| Workload.WrapWorkerContainer | pkg/workload/lws.go:235-242 | Likewise on the worker side |
| WorkloadFacts.HashLabelOfFinalSpec | pkg/workload/lws.go:95-164 | The label is the hash of the final spec with that key erased, although the key was written after hashing |
| WorkloadFacts.LabelDecidesStaleness | pkg/controller/inferenceservice_controller.go:255-258 | Two built sets carry the same hash label if and only if they are equal in labels and spec, short of a collision |
| WorkloadFacts.LeaderWorkerAgree | pkg/workload/lws.go:145-158 | Multi-node pods agree in everything but container 0, and there each side is the template's container started its own way |
| WorkloadFacts.LeaderLineWords | pkg/workload/lws.go:190-211 | The leader line's words: Ray prefix, command words or `vllm serve`, argument words, backend flag iff no single argument contains it |
| Text.WordsJoin | pkg/workload/lws.go:190-191 | Joining with spaces keeps the words of the parts |
| Text.ContainsJoin | pkg/workload/lws.go:200 | A spaceless needle occurs in the joined line iff it occurs in one part |
| Status.PhaseMeans | pkg/controller/inferenceservice_controller.go:671-679 | Running iff every index has a readable set with a ready replica; Pending iff not Running and no set has any replica, ready or not; ready never exceeds desired |
| Status.ReadyPodsMean | pkg/controller/inferenceservice_controller.go:659-669 | With at most one ready replica per set, ready pods are ready replicas times nodes, at most the total, equal iff Running |
| Observation.TallyMeans | pkg/controller/inferenceservice_controller.go:644-669 | The loop's four variables after any readings, with wrap-around |
| Observation.ActiveMeans | pkg/controller/inferenceservice_controller.go:625-636 | All components are ready iff there is a workload role and every set of every workload role was readable with a ready replica |
| Conditions.ConditionHistory | pkg/controller/condition.go:40-85 | After any run of persisted and lost status writes: one condition per type, Initialized true, Active as of the last persisted error-free pass, Failed present iff some persisted pass failed, generation of the last persisted pass |
| Conditions.ConditionsMean | pkg/controller/condition.go:40-85 | What the conditions say after any history: Initialized and Failed true; Active true if and only if all components of the last persisted error-free pass run, and Failed holds the last persisted error |
| Conditions.ConditionsThere | pkg/controller/condition.go:40-85 | Initialized exists iff some pass was persisted, Active iff some persisted pass was error-free, Failed iff some persisted pass failed, and there is no other |
| Conditions.UpsertPositions | pkg/controller/condition.go:40-48 | The first condition of the type is replaced where it stands, otherwise one is appended, and all others keep their place |
| Observation.ComponentMeans | pkg/controller/inferenceservice_controller.go:592-686 | Each field of a component status in terms of its readings: counts of readable sets with a ready replica, wrapped pod sums and the phase |
| Observation.AllSeenReadyIff | pkg/controller/inferenceservice_controller.go:625-636 | All components are ready if and only if there is a role but the router and each of its sets was read without a fault, stored, and had a ready replica |
| Observation.ActiveIsWritten | pkg/controller/inferenceservice_controller.go:134-149 | After an error-free call the stored Active condition is there and true exactly in that case |
| Conditions.ServiceObject.SetStatusCondition | pkg/controller/condition.go:40-48 | Replaces the first condition of the type in place or appends |
| Informers.RunKeeps | client-go/informers/externalversions/factory.go:119-200 | Every state of every interleaving satisfies the invariant |
| Informers.NextKeeps | client-go/informers/externalversions/factory.go:119-200 | because each single step keeps it |
| Informers.CountIsUnfinished | client-go/informers/externalversions/factory.go:133-145 | The WaitGroup count is always the number of started-but-unfinished informers, plus one between Add and go |
| Informers.ShutdownIsFinal | client-go/informers/externalversions/factory.go:128-155 | Once shuttingDown is set it stays set, nothing is started or launched, and the count only falls |
| Informers.ShutdownWaits | client-go/informers/externalversions/factory.go:148-155 | A Shutdown is released only at count zero with all goroutines finished, for ever after; one that sleeps has a goroutine to wait for |
| Informers.OncePerType | client-go/informers/externalversions/factory.go:132-200 | newFunc at most once per type, the same informer for all callers, Run launched at most once per informer, started within informers, only launched informers waited for |
| Informers.StartStartsAll | client-go/informers/externalversions/factory.go:124-146 | A Start that returns has left every informer then known started, unless it found the flag set |
| InformerProgress.NoDeadlock | client-go/informers/externalversions/factory.go:119-200 | In every reachable state in which a call is under way, something other than a new call can happen: the holder of the lock can step, or a waiting thread can, or a goroutine that a Shutdown waits for can end |
| InformerProgress.StepsBounded | client-go/informers/externalversions/factory.go:119-200 | Without new calls every interleaving ends within a bound computed from its first state, launched goroutines included |
| InformerProgress.AllReturn | client-go/informers/externalversions/factory.go:119-200 | Nothing but a new call can happen if and only if every call has returned and every goroutine has ended |
| InformerFactory.SharedInformerFactory.Start | client-go/informers/externalversions/factory.go:124-146 | A run of the fine steps: nothing after shutdown, otherwise all informers end up started and the count grows by the new ones |
| InformerFactory.SharedInformerFactory.BeginShutdown | client-go/informers/externalversions/factory.go:148-151 | The locked part of Shutdown sets the flag and leaves the thread about to wait |
| InformerFactory.SharedInformerFactory.GetInformer | client-go/informers/externalversions/factory.go:178-200 | The stored informer, or one new one made with the type's own resync period and given the factory's transform; the answer is recorded in the interleaving |
| InformerFactory.SharedInformerFactory.StartedSnapshot | client-go/informers/externalversions/factory.go:157-170 | The snapshot is exactly the started informers, in the class and in the interleaving |
| ModelUri.Grammar | api/core/v1alpha1/model_types.go:73-85 | A URI is accepted if and only if it is the printed form of a well-formed source and passes the length, character and dot rules |
| ModelUri.UniqueDecomposition | api/core/v1alpha1/model_types.go:67-85 | Every accepted URI has exactly one scheme and exactly one decomposition, which prints back to it |
| ModelUri.PrintInjective | api/core/v1alpha1/model_types.go:81-85 | A well-formed source is determined by its printed form |
| ModelUri.NoDotSegments | api/core/v1alpha1/model_types.go:79-80 | No slash-separated segment is . or .., literally or after percent-decoding, and decoding adds no slash (RFC 3986, sections 2.1 and 3.3) |
| ModelUri.DecodingAddsNone | api/core/v1alpha1/model_types.go:80 | The percent rule keeps decoding from making dots or slashes |
| ModelUri.QueryRuleImplied | api/core/v1alpha1/model_types.go:77-78 | A URI of allowed characters meets the query and fragment rule by itself |
| ModelUri.PlainSourceIsAccepted | api/core/v1alpha1/model_types.go:73-85 | The rules can all be met at once: by every well-formed source that fits and prints without dots and percent signs |
| UriForms.SourceIff | api/core/v1alpha1/model_types.go:81-83 | The expressions accept, part by part, exactly these: hosts of letters, digits, dots and hyphens, ports of digits, repositories of lower-case components with single separators, tags of 1 to 128 characters, digests of 64 hexadecimal digits, names that begin and end with a letter or digit, buckets and prefixes without empty pieces |
| UriForms.AcceptedMeans | api/core/v1alpha1/model_types.go:73-85 | A URI is accepted if and only if it spells such a source, has up to 2048 characters out of a fixed set, no dot segment, no encoded dot or slash, and for Hugging Face no two dots in a row |
| UriForms.RegistryAcceptedIff | api/core/v1alpha1/model_types.go:73-85 | A registry source, dots in host and tag included, is accepted if and only if it is not too long and its host is not a dot segment |
| UriForms.HuggingFaceAcceptedIff | api/core/v1alpha1/model_types.go:73-85 | A Hugging Face source is accepted if and only if it is not too long and has no two dots in a row and no dot piece in its revision |
| UriForms.BucketAcceptedIff | api/core/v1alpha1/model_types.go:73-85 | A bucket source is accepted if and only if it is not too long, is made of URI characters and has neither dot segments nor encoded dots and slashes |
| UriForms.DottedRegistryIsAccepted | api/core/v1alpha1/model_types.go:83 | oci://ghcr.io/org/model:v1.2 is accepted |
| UriForms.HuggingFaceIsAccepted | api/core/v1alpha1/model_types.go:81 | hf://Qwen/Qwen3-8B is accepted |
| Headings.ExtractMarkdownHeadings | docs/fusioninfer/scripts/check-i18n-content.mjs:145-205 | The one-pass loop returns the list of headings of the definition |
| Headings.HeadingListMeans | docs/fusioninfer/scripts/check-i18n-content.mjs:145-205 | A line is in that list iff it is heading-shaped and outside front matter and fences, with its own id |
| Headings.HeadingListOrdered | docs/fusioninfer/scripts/check-i18n-content.mjs:145-205 | Lines strictly increase |
| MarkdownForms.FrontMatterBegins | docs/fusioninfer/scripts/check-i18n-content.mjs:149 | Front matter begins if and only if the first line is three hyphens with white space around them |
| MarkdownForms.FrontMatterEndMeans | docs/fusioninfer/scripts/check-i18n-content.mjs:153 | It ends at a line of three hyphens or three dots and blanks |
| MarkdownForms.PastFrontMatter | docs/fusioninfer/scripts/check-i18n-content.mjs:149-157 | A line is past it if there is none or a line before, other than the first, ends it |
| MarkdownForms.OpeningMeans | docs/fusioninfer/scripts/check-i18n-content.mjs:171-176 | A line opens a fence of this marker and length if and only if it is up to three spaces, that many markers, at least three, and text that does not go on with the marker |
| MarkdownForms.ClosesMeans | docs/fusioninfer/scripts/check-i18n-content.mjs:160-166 | It closes a fence if and only if it is up to three spaces, a run of the same marker at least as long, and blanks |
| MarkdownForms.HeadingMeans | docs/fusioninfer/scripts/check-i18n-content.mjs:180-185 | It is a heading with this body if and only if it is up to three spaces, one to six hashes, blanks unless the line ends, and the body |
| MarkdownForms.IdMeans | docs/fusioninfer/scripts/check-i18n-content.mjs:186-188 | The id of a body is the one in braces at its end, up to blanks and hashes, after a blank or at the front |
| MarkdownForms.LineFeedEnds | docs/fusioninfer/scripts/check-i18n-content.mjs:146 | Lines end at line feeds |
| MarkdownForms.ReturnFeedEnds | docs/fusioninfer/scripts/check-i18n-content.mjs:146 | and take a carriage return before one with them |
| MarkdownForms.BomDropped | docs/fusioninfer/scripts/check-i18n-content.mjs:146 | One byte order mark in front of the file is dropped, and nothing else |
| HeadingLines.OpeningMatches | docs/fusioninfer/scripts/check-i18n-content.mjs:171 | The opening-fence test succeeds exactly where the script's regular expression matches |
| HeadingLines.OpeningCaptures | docs/fusioninfer/scripts/check-i18n-content.mjs:171-176 | and answers with the marker and length of the longest first group that any match allows |
| HeadingLines.ClosingMatches | docs/fusioninfer/scripts/check-i18n-content.mjs:160 | The closing-fence test succeeds exactly where the regular expression matches |
| HeadingLines.ClosingCaptures | docs/fusioninfer/scripts/check-i18n-content.mjs:160-165 | and answers with the marker and length of its greedy group |
| HeadingLines.HeadingMatches | docs/fusioninfer/scripts/check-i18n-content.mjs:180 | The heading test succeeds exactly where the regular expression matches |
| HeadingLines.HeadingCaptures | docs/fusioninfer/scripts/check-i18n-content.mjs:180-186 | and answers with the body that the greedy blanks leave to its second group |
| HeadingLines.FrontMatterEndMatches | docs/fusioninfer/scripts/check-i18n-content.mjs:149-157 | The test for the line that ends the front matter is the script's regular expression |
| HeadingLines.IdCaptured | docs/fusioninfer/scripts/check-i18n-content.mjs:186-188 | The computed id is the group of every match of the id expression, at whatever position: there is one id or none |
| HeadingLines.IdMatches | docs/fusioninfer/scripts/check-i18n-content.mjs:186-188 | and there is one exactly if the expression matches somewhere |
| HeadingLines.FenceTestsAgreeIff | docs/fusioninfer/scripts/check-i18n-content.mjs:171 | On every line of CommonMark the script and section 4.5 of CommonMark 0.31.2 agree on whether it opens a fence if and only if it is neither a backtick fence with a backtick in its info string nor a fence with U+2028 or U+2029 in it |
| HeadingLines.SplitsAgreeIff | docs/fusioninfer/scripts/check-i18n-content.mjs:146 | The script and section 2.1 of CommonMark see the same lines in a file if and only if every carriage return in it is followed by a line feed, which is so if and only if no line that the script sees holds a line ending |
| HeadingLines.CutLine | docs/fusioninfer/scripts/check-i18n-content.mjs:146-171 | Two lines of CommonMark with a carriage return between them are one line to the script, and no fence |
| HeadingLines.FenceTestsDiffer | docs/fusioninfer/scripts/check-i18n-content.mjs:146-171 | Each of the three differences occurs: concrete lines |
| Headings.ListedLines | docs/fusioninfer/scripts/check-i18n-content.mjs:199-203 | Every listed line number is a line of the file |
| HeadingPairs.FirstMismatchIndex | docs/fusioninfer/scripts/check-i18n-content.mjs:236-244 | The first index where the sequences differ, a missing id and the end being alike |
| HeadingPairs.AgreeIffTrimmedEqual | docs/fusioninfer/scripts/check-i18n-content.mjs:236-244 | It finds none iff the sequences are equal up to missing ids at their ends |
| HeadingPairs.AgreeEqualIffSameLength | docs/fusioninfer/scripts/check-i18n-content.mjs:236-244 | When it finds none, the sequences are equal iff they are equally long |
| HeadingPairs.DecidesEqualityIff | docs/fusioninfer/scripts/check-i18n-content.mjs:236-244 | Finding no mismatch decides equality if and only if the two do not have the same ids with different numbers of missing ones behind them |
| HeadingPairs.TrailingMissingIdsCompareEqual | docs/fusioninfer/scripts/check-i18n-content.mjs:236-244 | So it alone is not equality: a concrete pair |
| HeadingPairs.FileErrorsMean | docs/fusioninfer/scripts/check-i18n-content.mjs:207-234 | A file is reported iff an id is missing or duplicated |
| PairReports.FileErrorsAre | docs/fusioninfer/scripts/check-i18n-content.mjs:207-234 | The list of a file's errors, in order: each heading without an id, then each first heading of several that share one, all under the file's own path |
| PairReports.LinesAre | docs/fusioninfer/scripts/check-i18n-content.mjs:219-221 | The lines listed with a duplicated id are those of all its headings, in order |
| HeadingPairs.Checker.ValidateHeadingIds | docs/fusioninfer/scripts/check-i18n-content.mjs:207-234 | Pushes exactly one error per missing id, then one per duplicated id, in order |
| HeadingPairs.Checker.ValidateMarkdownPair | docs/fusioninfer/scripts/check-i18n-content.mjs:95-128 | The exact list pushed: the unreadable files; or the errors of the page, those of the translation, and the first differing index if there is one. Nothing is pushed iff both files are readable and their ids are all explicit, duplicate-free and equal one by one |

## Left out

- Kubernetes client, caches, watches, work queue, leader election, garbage collection, owner references: external
  systems; the store is atomic and any call may fail.
- Concurrent writers of the owned objects: between two passes the LeaderWorkerSet statuses may change at will, within
  a pass nobody else writes.
- The spec hash (`pkg/util/hash.go`): an uninterpreted function `env.hash`; the cases that need it to be free of
  collisions say so.
- JSON decoding of templates and routes and `resource.Quantity` formatting: templates are given as parsed, malformed
  or absent, quantities are reals that are rounded away from zero to whole units.
- Router object contents that are the same literal for every service (ports, probes, rules, replica count), and the
  EndpointPickerConfig texts themselves (`pkg/router`): constants.
- Timestamps, LastTransitionTime, logging and error wording: no result depends on them.
- Rollout strategy and startup policy of a LeaderWorkerSet: constants of its spec.
- HeadingPairs.Checker.ReadMarkdownHeadings: file access is a parameter that is absent when the file cannot be read.
- Heading text after the id, which only appears in error messages; the other checks of the script on file sets and
  JSON catalogues.
- InformerFactory.SharedInformerFactory.BeginShutdown: the wait that follows is a step of the interleaving
  (`Informers.ShutdownWaits`), because a method cannot block.
- Termination of informers: whether a stop channel is ever closed is up to the caller. That an informer can end is a
  step of the machine; `InformerProgress` shows that, if they do, every call returns.
- Transition rules of the Model API (immutable URI, LoRA): they compare an object with its old self and are one
  equality each.
- Objects of two services that collide by name: the theorems are about one service;
  `Workload.NamesSharedIff` says when that can happen.
- Generated clients, listers, apply configurations and deep-copy code, the documentation site, `cmd/main.go`, the
  empty ModelLoader controller and the designed InferenceDeployment API: no logic to prove.
