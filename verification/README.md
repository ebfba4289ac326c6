# A verified model of the RabbitMQ cluster operator

The operator keeps a RabbitmqCluster object and its children (services, secrets, config
maps, roles and one StatefulSet per node) in the shape the cluster's specification asks
for. This project models its reconcile loop as a state machine over a store of API objects
and proves what every pass, and every run of passes mixed with user and cluster activity,
keeps. It also models the list, scaling, text and calendar algorithms that the loop's
fixpoints rest on.

`dafny verify dfyconfig.toml` checks the whole project.

## How it is built

* `Objects`, `Store`, `Names`, `Metadata`: API objects as values, the store, child names,
  labels, annotations and owners. `Client.Api` is the mutable view a pass works on.
* `Merge`, `Plugins`, `Swaps`, `Timestamps`, `Conditions`, `Secrets`, `ServerConfig`: the
  algorithms under the builders and the status.
* `Scaling`, `Resources`, `Restart`, `Cli`, `Finalizer`, `Stages`, `Builders`: the stages of
  a pass. Each stage is a method on `Client.Api`, proved equal to a specification function
  on values (`...Spec`); the lemmas speak about the specification functions.
* `Reconcile`, `Passes`, `Protocol`, `Gates`, `Safety`, `Success`, `Traces`: the eleven-stage pass, what
  it can do to the children, to the cluster object and to the stamps, and the protocol
  properties of one pass.
* `Runs`, `Pending`, `LeftBehind`, `Rolling`, `Restarts`, `Unnoted`: properties of whole runs with any
  calls failing.
* `Convergence`, `Calm`, `Progress`, `DoubleRestart`, `Held`, `Reconfiguring`: full passes in which
  no call fails, how many lead to success, where they stop changing anything, and the inputs on
  which the code does something one would not expect. `Instances` shows that such inputs exist.
* `Desired` spells out what each builder's fixpoints are, and so what "in place" means in every
  theorem; `Tables` what the nodes then read from their files, and `Wiring` how the children refer to
  one another, both in terms of the cluster's own fields. `Inputs` states which parts of the cluster
  the builders read.

A `Schedule` fixes everything the operator does not control during a pass: which API call
fails, what the clock shows, which random bytes are drawn, in which order sets and pods are
listed and when a deleted object is gone. Every lemma holds for every schedule unless it
says otherwise, so it holds under every pattern of failures. A world's log records what the
operator did (creations, updates, requested restarts, template writes, deletions, commands,
cleared flags).

A calm pass (`Calm.CalmPass`) is one in which no call fails, a plugins flag is not too recent,
sets are listed in the order usual for them and the clock is past the last configuration
change. A steady store (`Progress.Steady`) is one in which nothing stands in the way: the
cluster is neither paused, deleted nor asked to shrink, no builder's Update or claim scaling is
refused, only the cluster's own sets exist, and all are settled.

## Assumptions

* The store keeps exactly what is written, and reads are not stale.
* One worker runs at a time, and the environment acts between passes, not within one;
  deleted sets and vanished pods are the exception and may go at any call.
* Only the operator deletes children. Users do not remove or add the operator's finalizer.
* User, service and vault annotations do not use the four `rabbitmq.com/*` keys that the
  operator keeps on children (`Objects.Clean`).
* The clock's text is never empty. Drawn bytes come encoded as the URL form of base64.
* A StatefulSet shows as being updated from the moment its pod template is written until
  the environment finishes the rollout.
* A stored StatefulSet has at least one container, as the API server demands.
* No overrides are set in the specification.

`Runs.FreshExists` shows that the clusters the run theorems start from exist,
`Progress.EmptySteady` that a new cluster is a steady store, `Instances.CalmRunExists` that every
store has calm runs of every length, and `Instances.RestingStore` that clusters of every size can
come to rest.

## What the code does that one might not expect

* `Held.WritesIffPastDeletion`: children are written if and only if the pass gets past the
  deletion stage. A cluster that is being deleted, has lost the operator's finalizer and is held
  back by someone else's does, and is reconciled like a live one; `Held.HeldClusterIsRebuilt` is
  an instance, of any size, in which a child is created.
* `DoubleRestart.RestartedTwice`: a pass that runs while a restarted set is still rolling marks
  the cluster for a rebalance; the mark is copied to the server ConfigMap
  (`ServerConfig.RebalanceMarkRestarts`), which asks for a restart although no configuration
  changed, so the set is restarted again. `Instances.RestartsTwice` shows that every cluster at
  rest with several nodes can get there. `Rolling.EverySetRestartsOnce` shows that without such
  a pass each stale set is restarted exactly once.
* `Convergence.FlagSetIffAnnotated`: writing an object and flagging it are two steps; if the
  second fails the flag is lost for good. `Unnoted.LostRestart` follows it through: success is
  declared although no set was restarted after the change, and `Instances.LosesRestart` shows that
  every cluster at rest can get there with one failing call. `Unnoted.RestartedIff` is the exact
  rule: by the time no set is stale, a set was restarted after the request if and only if both
  calls of the annotation worked or the set was still waiting for an earlier restart.
* `LeftBehind.LostGrowthIsNotResumed`: claims left behind when growing stopped half-way keep
  their size in every run at the same storage, also after the set is recreated;
  `LeftBehind.ClaimLeftBehind` is an instance. The scaler
  answers nil for a missing set, although scaling_test.go (internal/scaling, lines 81-102)
  expects it to grow the claim in that case; the code is followed.
* `Wiring.StatusResolves`: with an external secret the status still publishes a reference to the
  operator's own user secret, which then no builder writes; the binding names the right one.
* `Stages.ControlNeverPasses`: with the setting that lets the operator control the image,
  every pass ends at the defaults stage.
* `Stages.AllReplicasReadyIff`: the last listed set alone decides AllReplicasReady.
  `Stages.ClusterAvailableIff`: ClusterAvailable is never True; with endpoints it is False, unless
  there is one set too many and their slot is overwritten.
* `Conditions.AllReplicasReadyKeeps`: the deferred update of a condition's transition time runs
  after the result has been copied, so the computed conditions keep their old time whatever
  changes.
* `Stages.ConditionsEffect`: a pass is cut short by an index out of range exactly when there
  are more than Replicas + 1 sets.
* `Restart.StampEndsStaleness`: a restart stamped in the same second as the configuration
  change does not count, so the set is restarted again.
* `Swaps.EnvSortedIff`: sortEnvVar misplaces a name in exactly three starting orders.

## Model

| member | source | states |
|---|---|---|
| `Runs.EveryPassIsSafe` | controllers/rabbitmqcluster_controller.go:79-162 | from a fresh cluster, in every run with any edits, deletions, rollouts and failing calls, every pass keeps one rollout at a time started on a quiet store, the rules for deleted sets, the finalizer and scale-down rules, creation order, pending flags and the rebalance mark, and declares success, with the generation it read and no mark left, only when it is true |
| `Runs.RunKeepsInv` | controllers/rabbitmqcluster_controller.go:79-162 | in every state of every run objects have their type and label, at most one set is rolling, the user secret is of one piece (the file that makes the broker create its user names exactly the published user and password, the host is the client service, the connection string agrees), conditions have their shape, and a live cluster has children only with its finalizer stored |
| `Runs.RunsOnlyMoveOn` | controllers/rabbitmqcluster_controller.go:79-162 | over every run no claim shrinks, no stored credential or cookie changes, recorded replicas never fall and deletion is never undone |
| `Runs.PassKeepsInv` | controllers/rabbitmqcluster_controller.go:79-162 | no pass breaks the run invariant, whichever of its calls fail |
| `Runs.PassKeepsFinalizerFirst` | controllers/reconcile_finalizer.go:22-42 | no child appears before the finalizer of a live cluster is stored |
| `Runs.PassOnward` | controllers/reconcile_status.go:31-69 | one pass keeps claims, credentials, recorded replicas and the deletion mark moving one way |
| `Restarts.SuccessMeansRestarted` | controllers/reconcile_resources.go:109-172 | in every run from a new cluster whose clock does not run backwards and in whose last restart-asking pass both calls of the annotation worked, when a pass goes through every update that ever asked for a restart is followed by a template write of every set |
| `Restarts.RunKeepsLog` | controllers/reconcile_rabbitmq_configurations.go:71-119 | in every run, if both calls of the annotation worked in the last restart-asking pass, a stamp later than the noted change means that the log has a template write of that set after every request |
| `Unnoted.LostRestart` | controllers/reconcile_resources.go:64-84 | the lost restart: on a steady store with only the server ConfigMap out of place, when no call fails before the annotation and one of its two calls does, the next calm pass declares success although no set was restarted after the update |
| `Unnoted.RestartedIff` | controllers/reconcile_resources.go:109-172 | the exact rule for a restart that was asked for, whichever calls fail: once an undisturbed run has left no set stale, a set was restarted after the request if and only if both calls of the annotation worked or the set was stale before |
| `Unnoted.AskedStale` | controllers/reconcile_rabbitmq_configurations.go:93-119 | after a pass that asked for a restart the stale sets are those not restarted since the annotation began if both its calls worked, and otherwise those that were stale before |
| `Unnoted.StaleAreRestarted` | controllers/reconcile_resources.go:109-172 | in an undisturbed run that leaves no set stale exactly the sets stale at its beginning have their template written; none if no change was ever noted |
| `Reconfiguring.AskingPass` | controllers/rabbitmqcluster_controller.go:115-145 | on a steady store with only the server ConfigMap out of place, a pass without failures before the annotation asks for a restart, and which two of its calls the annotation is |
| `Reconfiguring.SettingReady` | internal/resource/configmap.go:257-285 | a new setting on a store at rest leaves it steady with exactly the server ConfigMap to put in place, which asks for a restart |
| `Instances.LosesRestart` | controllers/reconcile_resources.go:64-84 | every store at rest, of any size, can lose a restart with one failing call: the user adds a setting, and success is declared with no set restarted after the change |
| `Instances.ChangeToNote` | controllers/reconcile_rabbitmq_configurations.go:93-119 | on every store at rest a new setting and a calm pass leave every set stale and everything else in place |
| `Unnoted.AskedPass` | controllers/reconcile_resources.go:64-84 | a pass that asks for a restart puts the server ConfigMap in place and changes nothing else |
| `Traces.PassOnRecord` | controllers/reconcile_rabbitmq_configurations.go:93-119 | every pass moves the configuration stamp exactly when a restart-asking update is followed by an annotation whose two calls work, to the reading of the first, and ends in error when one of them fails |
| `Traces.PassStamp` | controllers/reconcile_resources.go:134-158 | every pass moves a restart stamp only with a template write of that set, and to the clock's reading |
| `Rolling.EverySetRestartsOnce` | controllers/reconcile_resources.go:109-172 | in every run with any failing calls in which no pass would mark a complete cluster, rollouts of a set and its staleness are conserved: a stale set is restarted exactly once by the time it no longer is, and no other set is; none if no change was ever noted |
| `Rolling.PassConserves` | controllers/reconcile_resources.go:109-172 | one pass of such a run, whichever calls fail |
| `Rolling.PassQuietly` | controllers/reconcile_resources.go:29-86 | whichever calls fail, a pass over a complete cluster stamps one set, clears flags or does nothing |
| `Rolling.PassAsksNoMore` | controllers/reconcile_rabbitmq_configurations.go:27-68 | a pass that neither fills in defaults nor marks the cluster leaves it asking for no more than before |
| `DoubleRestart.RestartsTake` | controllers/reconcile_resources.go:109-172 | as many calm full passes as there are stale sets, with rollouts finishing between them, leave none stale and restart each exactly once and no other |
| `DoubleRestart.RestartRound` | controllers/reconcile_resources.go:109-172 | one calm full pass over a complete cluster makes one stale set fewer and logs one template write |
| `DoubleRestart.RestartedTwice` | controllers/reconcile_rabbitmq_configurations.go:27-68 | when the next pass runs during the rollout and marks the cluster, the restarted set is restarted again before success |
| `Instances.RestartsTwice` | controllers/reconcile_rabbitmq_configurations.go:27-68 | every store at rest of a cluster with several nodes that does not skip the steps after a deployment can restart a set twice for one new setting, without a failing call |
| `DoubleRestart.MarkPass` | controllers/reconcile_rabbitmq_configurations.go:27-68 | a calm pass during a rollout of a cluster with several nodes and no mark sets the mark and does no more |
| `DoubleRestart.CopiedMark` | internal/resource/configmap.go:82-87 | copying the mark to the server ConfigMap asks for a restart, which a calm pass notes |
| `LeftBehind.LostGrowthIsNotResumed` | internal/scaling/scaling.go:31-74 | claims left behind when growing stopped half-way keep their size in every run at the same storage, recreation of the set included |
| `LeftBehind.RunLeavesAlone` | internal/scaling/scaling.go:43-48 | once a set is missing or at its size, no run at the same storage touches its claims |
| `LeftBehind.ClaimLeftBehind` | internal/scaling/scaling.go:178-202 | an instance: the read of the claim fails after the set was deleted, and the claim keeps half the wanted size in every run at the same storage |
| `LeftBehind.TurnGrowsClaims` | controllers/reconcile_resources.go:44-62 | a node's builder gets to its set only past the scaler: a turn over a set of another size that does not end in error has grown exactly the set's own claims that were too small |
| `Success.SuccessIsSound` | controllers/rabbitmqcluster_controller.go:149-161 | when the stored status newly claims success or records a generation, every object is a fixpoint of its builder, exactly the wanted sets exist, all settled and stamped later than the last noted configuration change, no flag or mark is left, and the generation is the one read |
| `Success.PassMeansReconciled` | controllers/rabbitmqcluster_controller.go:115-152 | a pass that goes through leaves everything in place, exactly the wanted sets, all settled and stamped later than the last noted configuration change |
| `Success.ExactSets` | controllers/reconcile_cli.go:26-30 | counting the sets is enough: a complete cluster with Replicas sets has exactly its own |
| `Success.AllInPlaceSurvives` | controllers/reconcile_cli.go:39-77 | clearing flags disturbs no builder's fixpoint |
| `Success.NoneStaleSurvives` | controllers/reconcile_cli.go:39-77 | clearing flags makes no set stale |
| `Safety.OneRolloutAtATime` | controllers/reconcile_resources.go:29-86 | a pass writes the template of at most one set, only on a quiet cluster, and never leaves two sets rolling |
| `Safety.StageRollsOne` | controllers/utils.go:118-136 | a stage that changes a child saw every set settled |
| `Safety.DeletionProtocol` | controllers/reconcile_finalizer.go:62-121 | children are written only past the deletion stage; every set removed there has the cluster's UID as its controller's and all its pods were labelled or gone first; a set of another UID or of none stays as it is and is not asked to go; only the claim scaler removes a set otherwise |
| `Finalizer.ForeignSetsStay` | controllers/utils.go:105-116 | the deletion stage leaves every set that another UID, or nobody, controls as it is and does not ask it to go |
| `Safety.StrangersStay` | controllers/reconcile_resources.go:109-172 | whichever calls fail, no pass changes or removes an object that has no child's name, none of the operator's flags and, if it is a set, not the cluster's label |
| `Safety.NothingWrittenWhileDeleting` | controllers/reconcile_finalizer.go:62-102 | with only the operator's finalizer left, a cluster being deleted has no child created or updated and no claim changed |
| `Safety.DeletionMakesProgress` | controllers/reconcile_finalizer.go:62-102 | when no call fails, one pass over a cluster being deleted with only the operator's finalizer left removes every set controlled by its UID, each after its pods were labelled or gone, changes no other child, and the cluster goes |
| `Instances.DeletionCanComplete` | controllers/reconcile_finalizer.go:62-121 | every such cluster has such a pass |
| `Safety.NoScaleDown` | controllers/reconcile_scale_down.go:18-36 | a live cluster asked to shrink changes no child and no claim and does not go through |
| `Gates.ClosedGateHolds` | controllers/rabbitmqcluster_controller.go:115-145 | while a live cluster is paused, lacks a default (or the operator controls the image), has neither plain listeners nor certificates, or is asked to shrink, no pass changes anything but the cluster object and none goes through, whichever calls fail |
| `Gates.PausedIff` | controllers/reconcile_pause.go:17-36 | the stage passes exactly without the label at true; otherwise only the warning is set |
| `Gates.DefaultsIff` | controllers/reconcile_operator_defaults.go:17-53 | the stage passes exactly when no default is missing, and otherwise writes exactly the missing ones, the empty references of the list left out |
| `Gates.TLSIff` | controllers/reconcile_tls.go:21-90 | the stage passes exactly when the cluster can be reached and the secret it names, and a CA secret of its own, can be read; otherwise the reason is recorded |
| `Gates.MarkIff` | controllers/reconcile_rabbitmq_configurations.go:27-68 | the stage passes exactly when no set of a cluster of several nodes that rebalances is being updated or the mark is set; otherwise it sets the mark, with the time |
| `Gates.BuilderFailureRecorded` | controllers/reconcile_persistence.go:19-38 | a failed claim scaling and a failed write of a child end the pass in error, each with its reason in the status |
| `Gates.CommandsWait` | controllers/reconcile_cli.go:18-30 | the last stage waits until as many sets as replicas exist and all are settled, and a failed command is recorded |
| `Safety.ClaimsNeverFall` | controllers/reconcile_persistence.go:19-38 | no pass shrinks or loses a claim |
| `Safety.FlagsSurvive` | controllers/reconcile_rabbitmq_configurations.go:71-119 | a flag that is set stays set unless its object goes or it is explicitly cleared |
| `Safety.ClearedAfterCommand` | controllers/reconcile_cli.go:18-77 | a flag or the mark is cleared only on a complete, quiet, restarted cluster, and its command stands earlier in the same pass's events; for plugins, with exactly the stored list, on every node |
| `Pending.FlagsByRole` | controllers/reconcile_rabbitmq_configurations.go:71-119 | an updated plugins ConfigMap, an updated server ConfigMap that asks for a restart and a created set carry their own flag, with the time of the call, when both calls of the annotation work, and no other write sets any flag |
| `Pending.PassFlagsPlugins` | controllers/reconcile_rabbitmq_configurations.go:83-89 | a pass that changes the plugins file flags it if both calls of the annotation work, and otherwise ends in error |
| `Pending.PluginsReachNodes` | controllers/reconcile_cli.go:32-103 | over runs: after a flagged change of the plugins file, whatever the user, the cluster and failing calls do, before a pass goes through some pass ran the plugins command on every node and cleared the flag after it |
| `Pending.FlagRun` | controllers/reconcile_cli.go:32-77 | over runs: a flag that is set stays set until some pass clears it after its command went through, or its object goes |
| `Pending.ClearedByText` | controllers/reconcile_cli.go:105-138 | in every pass the created flag goes only after enabling all feature flags, and the mark only after rebalancing all queues, in pod 0 of node 0 |
| `Safety.MarkSurvives` | controllers/reconcile_cli.go:67-75 | the cluster's rebalance mark survives every pass with its value unless the queues were rebalanced in that pass, on a quiet, complete and counted cluster |
| `Held.WritesIffPastDeletion` | controllers/reconcile_finalizer.go:62-102 | a calm pass with an object out of place writes a child if and only if it gets past the deletion stage |
| `Held.HeldClusterIsRebuilt` | controllers/reconcile_finalizer.go:44-60 | an instance for every size: a cluster being deleted and held back by another finalizer has a child created |
| `Safety.PluginsStored` | internal/resource/rabbitmq_plugins.go:51-67 | on a complete cluster the ConfigMap holds the cluster's plugin list |
| `Safety.TidyStep` | controllers/reconcile_resources.go:238-268 | every stage keeps objects well typed and sets labelled |
| `Protocol.OrderedBringUp` | controllers/reconcile_resources.go:32-84 | node i is created only when all sets are settled and all base objects and nodes 0..i-1 are in place |
| `Protocol.CreationIsBuilt` | controllers/reconcile_resources.go:44-86 | only a builder creates a child, after all builders before it found theirs in place |
| `Protocol.CredentialsStable` | internal/resource/default_user_secret.go:44-102 | no pass changes a stored credential; after it a stored user secret is of one piece if it was before, and a new one is |
| `Protocol.ObjectAfter` | controllers/reconcile_resources.go:238-268 | the complete list of what a stage can do to one object |
| `Protocol.EventsSplit` | controllers/rabbitmqcluster_controller.go:115-152 | a pass's events are those of its deletion stage and of one acting stage |
| `Passes.ChildrenAfter` | controllers/rabbitmqcluster_controller.go:115-152 | a pass does deletion work, then at most one stage's work on the children, under that stage's conditions |
| `Passes.ClusterAfter` | controllers/rabbitmqcluster_controller.go:92-105 | the cluster keeps its identity, goes only while being deleted, claims success only after a full pass and raises replicas only to the wanted number with everything in place |
| `Passes.FinalKeepsCluster` | controllers/rabbitmqcluster_controller.go:147-159 | only the last stage declares success, and only when it passes |
| `Passes.OneStageDecides` | controllers/rabbitmqcluster_controller.go:115-152 | every pass that can read its cluster is what one stage makes of the store its deletion stage left, after all stages between passed |
| `Reconcile.OneStageActs` | controllers/rabbitmqcluster_controller.go:115-152 | past deletion exactly one stage decides a pass, all stages before it having passed on the same store |
| `Reconcile.PassingChangesNothing` | controllers/rabbitmqcluster_controller.go:118-145 | between deletion and commands a stage that passes leaves store and cluster alone |
| `Reconcile.Reconcile` | controllers/rabbitmqcluster_controller.go:79-162 | the pass: read, stages in order with early return, deferred status write |
| `Reconcile.RunPipeline` | controllers/rabbitmqcluster_controller.go:115-152 | the stages run in the fixed order |
| `Reconcile.RunCommands` | controllers/rabbitmqcluster_controller.go:147-159 | commands, then failure or success and generation are declared |
| `Reconcile.ReconcileResources` | controllers/reconcile_resources.go:29-86 | the builders of the cached cluster are applied |
| `Convergence.Converges` | controllers/reconcile_resources.go:44-86 | for a fixed cluster, without faults and with rollouts finishing, after 9 + Replicas runs of reconcileResources everything is in place and the stage writes nothing any more |
| `Convergence.RoundsCount` | controllers/reconcile_resources.go:44-86 | after n calm runs of reconcileResources exactly n fewer objects are out of place, until none is |
| `Convergence.PassCalm` | controllers/reconcile_resources.go:29-86 | one calm run of the stage lowers the number of unfinished builders by exactly one, or finds none and continues |
| `Convergence.MeasureDrops` | internal/resource/rabbitmq_resource_builder.go:31-52 | putting one object in place lowers the measure by one because no builder writes another's object |
| `Convergence.BuilderCalm` | controllers/reconcile_resources.go:44-84 | a builder's turn passes over an object in place and otherwise puts it in place |
| `Convergence.ScaleCalm` | internal/scaling/scaling.go:31-74 | without faults the scaler succeeds unless it refuses |
| `Convergence.ClaimsUpdated` | internal/resource/statefulset.go:610-641 | after Update the claim template asks for the desired capacity |
| `Convergence.BuilderCount` | internal/resource/rabbitmq_resource_builder.go:31-52 | there are nine builders, or eight with an outside user secret, and one per replica |
| `Convergence.BringUpTakes` | controllers/reconcile_resources.go:44-86 | from an empty store reconcileResources takes exactly one calm run per builder |
| `Convergence.FlagSetIffAnnotated` | controllers/reconcile_rabbitmq_configurations.go:71-119 | for every object that calls for a flag, the flag is set exactly when both annotation calls work; the object is in place either way (Pending.FlagsByRole says which flag that is) |
| `Convergence.ScaleWritesIff` | internal/scaling/scaling.go:31-74 | the scaler writes a claim only past its size checks and with a claim too small, and without faults exactly then |
| `Convergence.ResourcesIdle` | controllers/reconcile_resources.go:29-86 | with every object in place the stage writes nothing, whichever calls fail, and passes when none does |
| `Progress.ReachesSuccess` | controllers/rabbitmqcluster_controller.go:79-162 | from every steady store at most 23 + 4 Replicas calm full passes, with rollouts finishing between them, end in a reconciled store that claims success for the current generation and that no further calm pass changes |
| `Progress.Fixpoint` | controllers/rabbitmqcluster_controller.go:79-162 | once success is declared and nothing is pending, a calm full pass leaves the whole store as it is |
| `Progress.Advances` | controllers/rabbitmqcluster_controller.go:115-152 | every calm full pass lowers the rank (finalizer, defaults, conditions, status, objects, restarts) or, at rank zero, declares success |
| `Progress.SuccessStep` | controllers/rabbitmqcluster_controller.go:147-161 | a calm pass with nothing left to write goes through, clears flags and mark, and records success and generation |
| `Progress.BuildersPass` | controllers/reconcile_resources.go:29-86 | a calm full pass with an object out of place puts the first such object in place and leaves the cluster serviceable |
| `Progress.RestartPass` | controllers/reconcile_resources.go:109-172 | a calm full pass over a complete cluster with a stale set stamps one later than the change |
| `Progress.ConditionsPass` | controllers/reconcile_status.go:71-87 | a calm pass with outdated conditions rewrites them and ends |
| `Progress.StatusPass` | controllers/reconcile_status.go:31-69 | a calm pass over a complete, restarted cluster publishes an outdated status |
| `Progress.EmptySteady` | controllers/rabbitmqcluster_controller.go:79-162 | a new cluster without children is a steady store |
| `Instances.CalmRunExists` | controllers/rabbitmqcluster_controller.go:79-162 | from every store there are calm runs of every length after any given time |
| `Instances.RestingStore` | controllers/rabbitmqcluster_controller.go:79-162 | clusters of every name and size have a store in which success is declared and nothing is left to do |
| `Calm.StageDecides` | controllers/rabbitmqcluster_controller.go:115-152 | when all stages before one are idle, a pass is what that stage makes of it |
| `Calm.StampKeepsPlace` | internal/resource/statefulset.go:183-211 | a restart stamp disturbs no builder's fixpoint |
| `Inputs.SameBuilders` | internal/resource/rabbitmq_resource_builder.go:31-52 | builders read only name, identity, labels, annotations and specification of the cluster |
| `Inputs.OthersSameBuilders` | internal/resource/rabbitmq_resource_builder.go:31-52 | no builder but the server ConfigMap's reads the additional configuration |
| `Inputs.FewerBuilders` | internal/metadata/annotation.go:14-37 | an object in place stays in place when the cluster asks for fewer annotations |
| `Inputs.AllAccepting` | internal/resource/rabbitmq_resource_builder.go:25-29 | no builder refuses an object because of an annotation |
| `Builders.AllWellBehaved` | internal/resource/rabbitmq_resource_builder.go:25-29 | every builder's Update is idempotent, keeps the object's type, and is undisturbed by status and flags |
| `Builders.KeysDistinct` | internal/resource/rabbitmq_resource_builder.go:33-46 | no two builders share a kind and name |
| `Builders.MakeResourceBuilders` | internal/resource/rabbitmq_resource_builder.go:31-52 | the builder list: fixed order, nodes last, the user secret cut out for outside secrets |
| `Builders.BuilderKinds` | internal/resource/rabbitmq_resource_builder.go:33-46 | which builders write sets and which write secrets |
| `Builders.UpdateKeepsStamp` | internal/resource/statefulset.go:145-193 | a set's Update never removes or rewinds the restart stamp, keeps the status, and sets label, owner and replicas |
| `Builders.UpdateKeepsFlags` | internal/metadata/annotation.go:14-37 | no builder's Update drops a flag |
| `Builders.UpdateStatefulSet` | internal/resource/statefulset.go:145-181 | the set's Update, field by field, refused when another controller owns it |
| `Builders.PodTemplateSpec` | internal/resource/statefulset.go:183-211 | the template keeps foreign entries and takes the operator's |
| `Builders.MakeVolumes` | internal/resource/statefulset.go:307-393 | the volumes of a node merged onto the current ones |
| `Builders.TemplateTwice` | internal/resource/statefulset.go:183-211 | rewriting the template again changes nothing |
| `Builders.UpdateClientPorts` | internal/resource/service.go:48-72 | client ports are merged, node ports dropped for ClusterIP |
| `Builders.ClientPortsTwice` | internal/resource/service.go:48-72 | a second pass over the ports changes nothing, node ports kept or dropped |
| `Builders.TouchedTwice` | internal/metadata/annotation.go:14-37 | labels, annotations and owner are set once and for all |
| `Builders.TouchedIgnoresFlags` | internal/metadata/annotation.go:22-37 | the operator's flags do not disturb the metadata fixpoint |
| `Desired.NodeFixedIff` | internal/resource/statefulset.go:145-211 | a set is in place exactly when it has the cluster's labels, owner, annotations, replicas, strategy, claim size and volume sources, and for each container and constraint of the cluster the very one asked for under its name, whatever else it has |
| `Desired.TemplateFixedIff` | internal/resource/statefulset.go:183-211 | the same for its pod template |
| `Desired.ImageInPlace` | internal/resource/statefulset.go:444-451 | a set in place runs the cluster's image, in the broker and in the setup container, with the cluster's memory |
| `Desired.NewImageOutOfPlace` | internal/resource/statefulset.go:145-211 | a changed image takes every node's set out of place |
| `Desired.UpdatePutsInPlace` | internal/resource/statefulset.go:145-181 | what Update makes of a set is in place; its status, selector and service name and the containers and volumes of others stay |
| `Desired.ClientFixedIff` | internal/resource/service.go:48-84 | the client service is in place exactly when it selects the cluster's pods, has the type given (ClusterIP if none), annotations and under each name the wanted port, target port and protocol, and no node ports for ClusterIP |
| `Desired.HeadlessFixedIff` | internal/resource/headless_service.go:48-70 | the headless service is in place exactly when it has no address, publishes unready pods, selects the cluster's and has under each name the wanted port, target port and protocol |
| `Desired.PluginsFixedIff` | internal/resource/rabbitmq_plugins.go:51-67 | the plugins ConfigMap is in place exactly when its file lists the desired plugins |
| `Desired.ServerConfFixedIff` | internal/resource/configmap.go:82-285 | the server ConfigMap is a fixpoint exactly with the wanted files, optional ones absent when empty, and metadata |
| `Desired.UserFixedIff` | internal/resource/default_user_secret.go:89-161 | the user secret is a fixpoint exactly when its ports are those of the table of ports for the enabled plugins, with or without TLS, and its connection string agrees |
| `Desired.CookieFixedIff` | internal/resource/erlang_cookie.go:57-67 | the cookie is a fixpoint whatever it is, given its metadata |
| `Desired.AccountFixedIff` | internal/resource/service_account.go:48-57 | the service account is a fixpoint given its metadata |
| `Desired.RoleFixedIff` | internal/resource/role.go:48-70 | role and binding are fixpoints exactly with the rules and subjects of peer discovery |
| `Desired.MetaFixedIff` | internal/metadata/annotation.go:14-37 | metadata is in place exactly when labels and owner are the cluster's and all wanted annotations are there |
| `Desired.RefusedIff` | internal/resource/statefulset.go:177-179 | a builder refuses an object of its type exactly when something of another kind or name controls it; the server ConfigMap's also when the user's or the stored configuration does not parse |
| `Resources.ReconcileBuilders` | controllers/reconcile_resources.go:29-86 | wait for readiness, then one builder after the other until one writes |
| `Resources.ReconcileBuilder` | controllers/reconcile_resources.go:44-84 | build, scale claims, create or update, annotate |
| `Resources.CreateOrUpdate` | controllers/reconcile_resources.go:238-268 | create what is missing, update what differs, leave what is equal |
| `Resources.AnnotateIfNeeded` | controllers/reconcile_rabbitmq_configurations.go:71-119 | the method behind the flags: one flag, or none, per kind of object and operation (Pending.FlagsByRole) |
| `Resources.UpdateAnnotation` | controllers/utils.go:40-60 | read again, write with one more annotation |
| `Resources.WaitResourceReady` | controllers/reconcile_resources.go:89-104 | continue only when every listed set is settled |
| `Resources.AllReplicasReadyAndUpdated` | controllers/utils.go:122-136 | true exactly when every set is ready and updated |
| `Resources.ReconcilePVC` | controllers/reconcile_persistence.go:19-38 | scale the claims or record the failure |
| `Resources.ResourcesEffect` | controllers/reconcile_resources.go:29-86 | the stage passes only over a quiet cluster with everything in place; otherwise at most one builder acted |
| `Resources.BuilderStepEffect` | controllers/reconcile_resources.go:44-84 | one iteration touches only its own object, its claims and its log entries |
| `Resources.LoopStops` | controllers/reconcile_resources.go:44-86 | the loop stops at the first builder that is not in place |
| `Restart.RestartStatefulSetIfNeeded` | controllers/reconcile_resources.go:109-172 | the restart stage with its two lookups and early returns |
| `Restart.RestartFirstStale` | controllers/reconcile_resources.go:134-171 | the loop over the listed sets stamps the first stale one, or fails, or finds none |
| `Restart.RestartEffect` | controllers/reconcile_resources.go:109-172 | the stage stamps one stale set and stops, and passes only when none is stale |
| `Restart.StampEndsStaleness` | controllers/reconcile_resources.go:134-153 | a stamp ends a set's staleness exactly when it is later than the change |
| `Restart.StampEvents` | controllers/reconcile_resources.go:140-158 | a stamp later than the change is one rollout of its set and none of any other |
| `Scaling.Scale` | internal/scaling/scaling.go:31-74 | the scaler: checks, claims, deletion, growth |
| `Scaling.GetClaims` | internal/scaling/scaling.go:76-111 | the claims of replicas 0 to n - 1 that exist, or a failed read |
| `Scaling.PvcsNeedingScaling` | internal/scaling/scaling.go:113-125 | the claims that are too small |
| `Scaling.DeleteStatefulset` | internal/scaling/scaling.go:147-176 | delete with orphans, then wait until it is gone |
| `Scaling.RetryUntilGone` | internal/scaling/scaling.go:204-213 | the bounded retry loop |
| `Scaling.ScaleUpPVCs` | internal/scaling/scaling.go:178-202 | claims are read and rewritten one by one up to the first error |
| `Scaling.ScaleOutcomes` | internal/scaling/scaling.go:31-74 | under every failure pattern: nothing, a pending deletion, or a confirmed deletion and exactly a prefix of the needed claims grown; refusals write nothing |
| `Scaling.ClaimsOnlyGrow` | internal/scaling/scaling.go:178-202 | no claim shrinks; one that changes is, by its text, the claim of a replica of the set, was too small and got the desired size after the set was gone |
| `Scaling.NilMeansGrown` | internal/scaling/scaling.go:31-74 | after a nil answer past the size checks each claim "persistence-", set, "-", decimal number below the replicas has the desired size if it was smaller, and every other claim its old size |
| `Scaling.NeededAreSmall` | internal/scaling/scaling.go:113-125 | a claim is needed exactly when it exists, is below the desired size and its text is that of a replica of the set |
| `Cli.ReconcileRabbitmqCLI` | controllers/reconcile_cli.go:18-77 | the commands stage |
| `Cli.RunSetPluginsCommand` | controllers/reconcile_cli.go:84-103 | the plugins command on every node up to the first failure |
| `Cli.SetPluginsIfNeeded` | controllers/reconcile_cli.go:32-53 | flagged and not too recent: command, then flag removal |
| `Cli.RebalanceIfNeeded` | controllers/reconcile_cli.go:67-75 | marked: command, then mark removal |
| `Cli.DeleteAnnotation` | controllers/utils.go:26-38 | one annotation is removed and the object written |
| `Cli.CliStageEffect` | controllers/reconcile_cli.go:18-77 | flags and the mark go only after their commands, in that order, with all sets settled and counted; the stage passes only with none left |
| `Cli.SetPluginsEffect` | controllers/reconcile_cli.go:84-103 | success means the command went through on every node |
| `Finalizer.ReconcileDelete` | controllers/reconcile_finalizer.go:62-102 | the deletion stage; per-set errors do not stop it |
| `Finalizer.AddFinalizer` | controllers/reconcile_finalizer.go:22-42 | the finalizer is added once, to a live cluster |
| `Finalizer.RemoveFinalizer` | controllers/reconcile_finalizer.go:44-60 | the finalizer is filtered out; absent means continue |
| `Finalizer.AddRabbitmqDeletionLabel` | controllers/reconcile_finalizer.go:104-121 | every matching pod anywhere is labelled, vanished ones ignored |
| `Finalizer.DeleteListed` | controllers/reconcile_finalizer.go:74-99 | one set: owner UID check, labels, deletion |
| `Finalizer.DeleteStageEffect` | controllers/reconcile_finalizer.go:62-102 | sets go only if the cluster controls them and after their pods were handled, labelled pods carry the marker and no other label changes, and all is done exactly when the pass goes on |
| `Finalizer.DeletionCompletes` | controllers/reconcile_finalizer.go:62-121 | the deletion stage without failing calls: every set controlled by the UID is removed properly, the finalizer dropped and the cluster gone |
| `Stages.ReconcilePaused` | controllers/reconcile_pause.go:17-36 | a paused cluster gets a warning and no more |
| `Stages.ReconcileOperatorDefaults` | controllers/reconcile_operator_defaults.go:17-51 | image, updater image and pull secrets are filled in and written |
| `Stages.ControlNeverPasses` | controllers/reconcile_operator_defaults.go:17-51 | the stage passes exactly when no default is missing, and never when the operator controls the image |
| `Stages.ReconcileStatusConditions` | controllers/reconcile_status.go:71-87 | conditions are recomputed and written when they changed |
| `Stages.GetChildResources` | controllers/reconcile_status.go:106-137 | the slice of sets and endpoints, or an index out of range |
| `Stages.ConditionsEffect` | controllers/reconcile_status.go:71-137 | the stage writes only status, never claims success, and is cut short exactly with more than Replicas + 1 sets |
| `Stages.ConditionsWrittenOnce` | controllers/reconcile_status.go:71-87 | a later pass that sees the same resources does not write the conditions again |
| `Stages.ReconcileTLS` | controllers/reconcile_tls.go:21-39 | a configuration without TLS but without plain listeners ends the pass |
| `Stages.CheckTLSSecrets` | controllers/reconcile_tls.go:41-90 | one secret is checked, or two for a separate CA |
| `Stages.ReconcileQueueRebalanced` | controllers/reconcile_rabbitmq_configurations.go:27-68 | a set being updated marks the cluster once |
| `Stages.MarkEffect` | controllers/reconcile_rabbitmq_configurations.go:27-68 | passing unmarked means no set needs a rebalance |
| `Stages.ReconcileScaleDown` | controllers/reconcile_scale_down.go:18-36 | fewer replicas than recorded end the pass |
| `Stages.ScaleDownEffect` | controllers/reconcile_scale_down.go:18-36 | the stage passes exactly when the cluster is not to shrink |
| `Stages.ReconcileStatus` | controllers/reconcile_status.go:31-69 | replicas, default user and binding are published |
| `Stages.StatusEffect` | controllers/reconcile_status.go:31-69 | the only stage that raises the recorded replicas, and it passes exactly when all is published |
| `Conditions.SetCondition` | internal/status/status.go:31-42 | the first entry of a type is updated |
| `Conditions.SetConditions` | internal/status/status.go:44-82 | the four conditions are rebuilt from resources and old entries |
| `Conditions.SetConditionsShape` | internal/status/status.go:76-81 | from any list, four types once each in fixed order |
| `Conditions.SetConditionsTwice` | internal/status/status.go:44-82 | the same resources give the same list at any later time |
| `Conditions.SetConditionLocal` | internal/status/status.go:31-42 | setting a condition keeps the shape and every other entry, and moves the transition time exactly when the status changes |
| `Conditions.AllReplicasReadyKeeps` | internal/status/all_replicas_ready.go:27-41 | the computed condition keeps its old transition time, since the deferred update comes after the result was copied |
| `Stages.AllReplicasReadyIff` | internal/status/all_replicas_ready.go:42-66 | AllReplicasReady is True exactly when no set is missing and the last listed set is ready |
| `Stages.ClusterAvailableIff` | internal/status/cluster_available.go:40-63 | ClusterAvailable is False exactly when endpoints exist and their slot is not overwritten, and otherwise Unknown |
| `Stages.NoWarningsIff` | internal/status/no_warnings.go:24-64 | NoWarnings is True exactly when no set is missing and the first container of the last listed set may not use more memory than it asks for; the reason says which |
| `ServerConfig.RestartIff` | internal/resource/configmap.go:274-285 | Update asks for a restart exactly when more than size hints changes |
| `ServerConfig.ScalingNeverRestarts` | internal/resource/configmap.go:287-313 | changing only the replicas never asks for a restart |
| `ServerConfig.AdditionalWins` | internal/resource/configmap.go:257-271 | a key of additionalConfig has the user's last value in the file, once |
| `ServerConfig.NewSettingRestarts` | internal/resource/configmap.go:257-285 | a setting the file does not have yet, added to additionalConfig, is accepted, changes the file and asks for a restart |
| `ServerConfig.DefaultsOtherwise` | internal/resource/configmap.go:126-271 | an operator setting the user does not mention keeps its place and value |
| `ServerConfig.OperatorFileSays` | internal/resource/configmap.go:88-104 | the operator file carries the number of replicas and the cluster's name |
| `ServerConfig.ConfigFixed` | internal/resource/configmap.go:82-285 | Update is idempotent |
| `ServerConfig.ConfigIgnoresFlags` | internal/resource/configmap.go:82-87 | Update's fixpoint ignores the operator's flags |
| `ServerConfig.RebalanceMarkRestarts` | internal/resource/configmap.go:82-87 | a new rebalance mark alone asks for a restart |
| `ServerConfig.RemoveHints` | internal/resource/configmap.go:292-313 | exactly the size hints are erased |
| `ServerConfig.RemoveHeadroom` | internal/resource/configmap.go:325-331 | a fifth of the memory, at most 2 GiB, stays free |
| `Tables.NodesRead` | internal/resource/configmap.go:82-271 | with the server ConfigMap in place the nodes read the operator's table and then the user's, the user's own settings win, and the other configuration files are there exactly when the cluster gives them |
| `Tables.OperatorFileReads` | internal/resource/configmap.go:88-118 | the operator's file as a table: fixed settings, size hint, name, and safe mechanisms exactly when the user chooses none |
| `Tables.UserFileReads` | internal/resource/configmap.go:120-266 | the user's file as a table, by the fields of the cluster: TLS, plain listeners, a CA, each plugin, the memory limit, and the user's own settings last |
| `Wiring.VolumesResolve` | internal/resource/statefulset.go:234-393 | every volume comes from an object the operator itself writes under that very name, or from a secret the user names: which, and when |
| `Wiring.NodeMounts` | internal/resource/statefulset.go:444-548 | the broker mounts exactly the configuration files that the server ConfigMap in place has, its certificates, and the default user file unless vault brings it |
| `Wiring.UpdaterRuns` | internal/resource/statefulset.go:550-604 | the updater runs exactly when vault keeps the user and an image is given, over TLS exactly when the cluster has it |
| `Wiring.AccountsResolve` | internal/resource/role_binding.go:47-68 | pods run under the service account, and the binding gives that account the role, that the operator writes |
| `Wiring.SelectorsMatch` | internal/resource/statefulset.go:103-139 | a set and both services select the pods of the set's own template, its pods are served by the headless service, and it asks for storage exactly once, or not at all |
| `Wiring.VaultIsAsked` | internal/resource/statefulset.go:671-735 | the annotations that ask vault, whichever of role, user and certificate the cluster names; a certificate is for the hosts of all nodes; the user's own annotations win |
| `Wiring.SpreadOff` | api/v1beta1/rabbitmqcluster_types.go:487-493 | the default spread is off exactly when its annotation is true between blanks |
| `Wiring.StatusResolves` | controllers/reconcile_status.go:31-69 | the published service is one the operator writes and the binding names the secret in use; the published secret is one that some builder writes if and only if the user names none |
| `Secrets.UpdateKeepsCredentials` | internal/resource/default_user_secret.go:89-161 | Update keeps every credential, has a port exactly for enabled plugins, and makes the connection string agree |
| `Secrets.UpdateTwice` | internal/resource/default_user_secret.go:89-161 | a second Update finds nothing to do |
| `Secrets.BuiltCredentials` | internal/resource/default_user_secret.go:44-83 | what Build puts into the secret: a prefixed user and a password from different drawn bytes, a file from which an independent reader gets back exactly these two, and the address of the client service |
| `Secrets.BuiltCookie` | internal/resource/erlang_cookie.go:35-51 | the cookie is what was drawn, under its one key |
| `Secrets.PortsIff` | internal/resource/default_user_secret.go:104-151 | the table of ports by enabled plugin, with and without TLS, entry by entry |
| `Secrets.ConnectionStringReadsBack` | internal/resource/default_user_secret.go:153-159 | an independent reader gets back the stored user, password, host and port |
| `Secrets.UpdatePorts` | internal/resource/default_user_secret.go:104-151 | the port table, walked in any order |
| `Merge.MergeByIndex` | internal/resource/utils.go:77-197 | the index-map loop computes the keyed upsert fold |
| `Merge.MergeShape` | internal/resource/utils.go:77-197 | what stands where after a merge: old entries keep their places, new keys are appended once, in order |
| `Merge.MergeIdempotent` | internal/resource/utils.go:77-197 | merging the same entries again changes nothing, even with repeated keys |
| `Merge.FixpointIff` | internal/resource/utils.go:77-197 | a list is a fixpoint exactly when it has absorbed the new entries |
| `Merge.ContainersTakenIff` | internal/resource/utils.go:119-137 | a list has absorbed containers exactly when under each name its last entry is the last one wanted |
| `Merge.VolumesTakenIff` | internal/resource/utils.go:77-95 | for volumes: exactly when the source is the one wanted |
| `Merge.PortsTakenIff` | internal/resource/utils.go:97-117 | for ports: exactly when port, target port and protocol are those wanted |
| `Merge.ConstraintsTakenIff` | internal/resource/utils.go:179-197 | for constraints: exactly when it is the one wanted |
| `Merge.ClaimsTakenIff` | internal/resource/utils.go:159-177 | for claims: exactly when the size is the one wanted |
| `Merge.MergedKeepsOthers` | internal/resource/utils.go:77-197 | entries of other names stay where and as they are |
| `Merge.MergeKeepsUnique` | internal/resource/utils.go:77-197 | unique keys stay unique |
| `Merge.NodePortsSurvive` | internal/resource/utils.go:97-117 | a port keeps its name and node port |
| `Metadata.Merge` | internal/metadata/annotation.go:22-37 | the nested loops, in any order of a map's keys |
| `Metadata.MergeDecides` | internal/metadata/annotation.go:22-37 | the last map that lets a key through decides it; nothing is removed |
| `Metadata.MergeTwice` | internal/metadata/annotation.go:22-37 | merging again changes nothing |
| `Metadata.LabelsSelected` | internal/metadata/label.go:26-36 | user labels never hide the selector label |
| `Metadata.LabelsAre` | internal/metadata/label.go:18-36 | children carry the operator's three labels and the user's, but none of the user's in the operator's domain |
| `Metadata.KubernetesAnnotationIff` | internal/metadata/annotation.go:39-45 | an annotation is not copied exactly when one of the two domains occurs in its key |
| `Metadata.OwnedByOtherIff` | internal/resource/statefulset.go:177-179 | only a controller of another kind or name counts as another |
| `Names.NodeNamesInjective` | api/v1beta1/rabbitmqcluster_types.go:454-465 | different nodes have different set and pod names |
| `Names.NodeNamesRead` | api/v1beta1/rabbitmqcluster_types.go:454-465 | the texts of a node's set and pod names |
| `Names.ClaimNameIff` | internal/scaling/scaling.go:90-95 | a text is the claim of replica i exactly when it is template, set and the decimal text that reads as i |
| `Names.ItoaIff` | api/v1beta1/rabbitmqcluster_types.go:463-465 | decimal printing gives the one text without leading zeros that reads as the number |
| `Names.ClaimNamesInjective` | internal/scaling/scaling.go:90-95 | different replicas, and different sets, mount different claims |
| `Names.ItoaRoundTrip` | api/v1beta1/rabbitmqcluster_types.go:463-465 | decimal printing is undone by reading |
| `Plugins.DesiredPlugins` | internal/resource/rabbitmq_plugins.go:85-97 | the loop computes the duplicate-free list |
| `Plugins.DedupOrder` | internal/resource/rabbitmq_plugins.go:85-97 | every name once, in order of first occurrence |
| `Plugins.DesiredStable` | internal/resource/rabbitmq_plugins.go:73-97 | required plugins first, nothing lost, stable when fed back |
| `Plugins.PrintedFormsAgree` | internal/resource/rabbitmq_plugins.go:99-106 | the file and the command line read back as the same list |
| `Swaps.SortEnvVar` | internal/resource/utils.go:24-38 | the in-place walk over environment variables, or an index out of range |
| `Swaps.SortVolumeMounts` | internal/resource/utils.go:44-54 | the in-place walk over mounts, or an index out of range |
| `Swaps.EnvSortedIff` | internal/resource/utils.go:24-38 | a permutation that puts the three names first exactly unless they start in one of three orders |
| `Swaps.InOrderIsSorted` | internal/resource/utils.go:22-38 | names in their own order always end in place |
| `Swaps.NotEveryOrder` | internal/resource/utils.go:24-38 | a list left out of order |
| `Swaps.MountsSorted` | internal/resource/utils.go:40-54 | a permutation with the cookie mount first and persistence second, from any order |
| `Swaps.HoistedPermutes` | internal/resource/utils.go:24-54 | any list is only permuted |
| `Timestamps.StampsOrderInstants` | controllers/reconcile_resources.go:136-153 | at one offset, text order of stamps is time order and a stamp determines its second |
| `Timestamps.TextOrdersFields` | controllers/reconcile_rabbitmq_configurations.go:110 | text order is field order |
| `Timestamps.FieldsOrderInstants` | controllers/reconcile_resources.go:136-153 | field order is order of seconds over the Gregorian calendar |
| `Timestamps.CivilRoundTrip` | controllers/reconcile_resources.go:153 | every second of the four-digit years has exactly its fields |
| `Timestamps.RestartComparesInstants` | controllers/reconcile_resources.go:134-139 | the restart decision on texts is the decision on instants |

## Left out

- Override and patch handling (applySvcOverride, applyStsOverride, applyPodSpecOverride): strategic merge patches are a foreign library's semantics.
- The text format of configuration files: a file is an ordered list of entries, and writing then loading it is taken to give it back.
- The port tables of internal/constant/ports.go: taken as part of the specification; they are Boolean case tables.
- Vault templates, shell command text, probes, resource constants and init commands: literals; a vault template is represented by the values filled into it.
- Conflict retries of the Kubernetes client, queueing, caches and API-server defaulting: a call works or fails.
- Changes by the environment in the middle of a pass, other than deleted sets and pods going away.
- The UID precondition of the set deletion: it guards against stale reads, which the store does not have.
- Error texts, event recording and logging; a condition message that only carries an error text is empty here.
- Builders.UpdateClientPorts: does not model that an empty service type is also written to the cached specification.
- Convergence.Converges: assumes no refused Update and no refused storage change, because those end every pass with an error; Progress.ReachesSuccess is the statement over full passes.
- Restarts.SuccessMeansRestarted: states one direction, because in an arbitrary run any other template write restarts a set as well; Unnoted.RestartedIff is the rule in both directions for runs without such writes.
- Stages.CheckTLSSecrets: a secret that lacks a key is not told apart from a call that fails; both end the pass in error.
- A user label or annotation removed from the cluster stays on the children, as merging never removes; garbage collection of children is not modelled.
- The kubectl plugin, webhooks of the API machinery, process setup and profiling.
