# A verified model of nats-manager

nats-manager is a Kubernetes operator. It watches `NATS` custom resources, renders a Helm chart for each of
them, applies the result, writes a status back, and on deletion removes the persistent volume claims before it
gives its finalizer up. This project models the parts that carry state or build trees, and proves what every
run of them keeps.

## How it is built

- `Conditions`, `NatsStatus`: the status of a resource, its setters as methods on a mutable `NATSStatus`, and
  the comparison that decides whether a status is written.
- `Values`, `Chart`, `Overrides`, `Settings`, `Renders`: dotted override keys, their expansion into nested values in any map
  order, the merge into the one values map the renderer keeps for its lifetime, the overrides made from a spec,
  what the configuration holds under every dotted key, and what histories of such renders leave in the values.
- `Naming`, `Zones`: the names and labels the chart generates against those the controller looks for; the
  node-zone cache and the zone count.
- `Operator`: the specification. A `World` is the API server's objects, the process's memory and a record of
  effects. One reconcile is one step that takes an `Obs`, the outcome of every external call it may make,
  so a theorem over all `Obs` covers every failure at every call. `Step` adds what others do: create, edit and
  delete resources, add and remove claims and Secrets, restart the process. `Run` is any sequence of steps.
- `Reconciler`: the controller itself, as classes `ApiServer`, `Nats` and `Controller` with the source's methods.
  Every method updates its objects in place, in the source's order, and is proved to have exactly the effect
  the specification gives it. `Controller.Reconcile` ties the whole loop to `Operator.Reconcile`.
- `StatusRules`, `Safety`, `Deletion`, `Convergence`, `Interleaving`, `Transitions`, `Process`, `Passwords`, `Lifecycle`,
  `Reach`, `Outcomes`: the theorems, about single decisions, about every step, and about whole runs. `Outcomes` tells what
  a reconcile returns and writes by its observations alone.

What the record of effects says is fixed by the methods of `Reconciler`, which append to it where the call
happens. `Update` leaves the stored status alone because the status is a subresource; so what `Initialize` and
`SetStateDeleting` put into a copy is lost when the handler ends in an `Update` of the finalizers.

## What turned out not to hold as one might expect

- A sweep that fails with NotFound, when a claim disappears between listing and deletion, keeps the finalizer
  and returns neither an error nor a requeue. `Deletion.DeletionStep` shows that this is the only such case,
  `Lifecycle.StallsSilently` gives the input.
- The chart names the account Secret after `nats.fullname`, the controller looks it up under the resource's
  name. They agree exactly when the name contains "nats" or has at least 62 characters
  (`Naming.FullnameIsNameIff`). Otherwise every deployment without failures rotates the password, for as long as nobody
  adds the Secret that is looked up (`Passwords.EveryDeploymentRotates`; the input is `eventing`, in
  `Passwords.EventingRotates`).
- Even where they agree, the password is not safe from other resources: a resource `foo` deploys its Secret under the
  name that `foo-nats` looks up, and so rotates the password of `foo-nats` (`Passwords.FooRotatesFooNats`). A deployment
  without failures does this to another resource exactly when its own looked-up Secret is missing and the chart turns
  its name into the other's (`Passwords.SmoothAppliesToIff`); without such a resource nobody does
  (`Passwords.SecretLeftAlone`).
- The deletion checks dial an address made from the resource's own name, and the chart names the Service after
  `nats.fullname`. So for the names the chart changes, no Service of the chart has the dialed address
  (`Reach.DialedIsServedIff`), and the resource is deleted with its claims whatever streams its server holds
  (`Reach.OwnServerUnseen`, `Reach.EventingUnseen`).
- Pods are counted by the fixed instance label `eventing`, which a resource's pods carry exactly for the names `eventing`
  and `eventing-nats` (`Reach.CountsOwnPodsIff`). Any other clustered resource, alone in its namespace, counts no zone and
  stays in Warning however its pods are spread (`Reach.OthersStayInWarning`).
- A render depends on earlier ones, as the configuration is merged into the renderer's own values: a label
  survives its removal from the spec (`Renders.LabelSurvivesRemoval`, `Renders.RemovedLabelMatters`). History matters
  exactly when an earlier request of the process set one of the storage class, the memory size, a label or an annotation
  to anything but the chart's own value and the last request leaves it out (`Renders.ProcessHistoryMattersIff`).
- A stored transition time can move although the condition's status stays, because `Initialize` turns StatefulSet and
  Available False before `SetStateReady` turns them True. It does so exactly for these two conditions when the
  StatefulSet was seen ready and the clock has moved on, and on no other path (`Transitions.StoredTimeKeptIff`);
  `Transitions.TimeMovesWithoutTransition` gives the input.
- `ConditionsEquals` is not symmetric on all lists (`Conditions.MatchAsymmetricWithDuplicates`). A match can be turned
  around exactly when the existing list repeats no type with another content and has no type the expected one lacks
  (`Conditions.MatchReversesIff`). The operator only ever stores lists on which it is an equivalence
  (`Conditions.MatchEquivalence`, `Safety.StatusesWellFormed`).
- Resources named `eventing` and `eventing-nats` in one namespace sweep each other's claims; no other pair does
  (`Naming.SweepOfOther`).
- The comment above `GetNodeZone` says that a zone is cached "for a certain duration"; the code never expires it, and the
  model follows the code.

## Model

| member | source | states |
|---|---|---|
| Reconciler.Controller.Reconcile | internal/controller/nats/controller.go:136-164 | one pass of the imperative loop, with its read failures and its three handlers, changes the server, the memory and the record exactly as the specification step does |
| Reconciler.Controller.HandleNATSReconcile | internal/controller/nats/provisioner.go:22-74 | provisioning in the source's order: provider, finalizer, instance, deployment, watch, state; the finalizer step stores no status |
| Reconciler.Controller.HandleNATSState | internal/controller/nats/provisioner.go:78-154 | the status decision reached through the in-place setters is the verdict's status, and the outcome requeues or fails accordingly |
| Reconciler.Controller.HandleNATSCRAllowedCheck | internal/controller/nats/controller.go:168-187 | allowed exactly for the configured name and namespace, and then nothing has moved; otherwise the forbidden status is synced |
| Reconciler.Controller.HandleNATSDeletion | internal/controller/nats/deprovisioner.go:24-73 | every path of the deletion handler, each failing check included, has the specified effect |
| Reconciler.Controller.HoldDeletion | internal/controller/nats/deprovisioner.go:46-52 | a blocked deletion warns, requeues, and does nothing else |
| Reconciler.Controller.CustomerStreamExists | internal/controller/nats/deprovisioner.go:76-88 | true exactly when some listed stream is not `sap`; errors are passed on |
| Reconciler.Controller.SapStreamConsumerExists | internal/controller/nats/deprovisioner.go:90-109 | asks for consumers only when a `sap` stream is listed, by a second listing that may differ from the first |
| Reconciler.Controller.CreateAndConnectNatsClient | internal/controller/nats/deprovisioner.go:112-120 | stores a new client only when the key has none; the client stays stored when connecting fails |
| Reconciler.Controller.CloseNatsClient | internal/controller/nats/deprovisioner.go:152-158 | closes and drops the stored client, if there is one |
| Reconciler.Controller.DeletePVCsWithLabel | pkg/k8s/client.go:122-156 | the listing and the early-exit loop delete exactly what the recursive sweep deletes |
| Reconciler.Controller.DeletePVCsAndRemoveFinalizer | internal/controller/nats/deprovisioner.go:122-139 | sweep, then close, then release, with NotFound swallowed |
| Reconciler.Controller.AddFinalizer | internal/controller/nats/utils.go:15-21 | the stored finalizers gain the controller's and the stored status is kept |
| Reconciler.Controller.RemoveFinalizer | internal/controller/nats/utils.go:23-30 | the stored finalizers lose the controller's; the resource goes if it was the last |
| Reconciler.Controller.SyncNATSStatus | internal/controller/nats/status.go:34-74 | writes only when the stored status differs from the copy's |
| Reconciler.Controller.SyncNATSStatusWithErr | internal/controller/nats/status.go:22-31 | syncs the error status, which overwrites a StatefulSet message set before |
| Reconciler.Controller.SyncCloudProvider | internal/controller/nats/shoot_info.go:19-40 | reads once; NotFound is remembered as the empty provider, any other failure leaves the cache unset |
| Reconciler.Controller.InitNATSInstance | internal/controller/nats/controller.go:208-247 | the first failing lookup decides the error; the shared values then hold everything the spec asks for, each at its path, with rotation exactly when the looked-up Secret is missing; the record of requests grows by at most this spec's, and the renderer's history keeps answering it |
| Reconciler.Controller.RenderRequest | internal/controller/nats/controller.go:228-246 | a render merges exactly the configuration of its request into the shared history, and yields what the request asks for |
| Reconciler.Controller.ValuesFollowRequests | pkg/k8s/chart/helmrenderer.go:104-121 | at any time the controller's shared values hold, at and below each override's path, what its latest request that set it asked for, else the chart's own value |
| Reconciler.Controller.GenerateNatsResources | internal/controller/nats/controller.go:191-205 | the shared values change in place by the one expansion of a prefix-free configuration, and what is rendered is read from them |
| Reconciler.ChosenInstance | internal/controller/nats/controller.go:228-246 | values that hold a spec's overrides render what the spec asks for, whatever earlier renders left in them |
| Reconciler.Controller.DeployInstance | pkg/manager/nats.go:66-73 | applies objects in order up to the first failure |
| Reconciler.Controller.GetStatefulSets | pkg/k8s/chart/releaseinstance.go:47-55 | the result holds exactly the StatefulSets among the rendered objects |
| Reconciler.Controller.IsNATSStatefulSetReady | pkg/manager/nats.go:84-105 | an error when no StatefulSet was rendered or it cannot be read, otherwise true exactly when current, updated and ready replicas each equal the replicas |
| Reconciler.ApiServer.Update | api/v1alpha1/nats_types.go:80-93 | stores finalizers, never the status; a deleting resource without finalizers disappears |
| Reconciler.ApiServer.UpdateStatus | internal/controller/nats/status.go:65-68 | stores the status and nothing else |
| NatsStatus.NATSStatus.Initialize | api/v1alpha1/nats_status.go:125-129 | the whole new status after the in-place updates |
| NatsStatus.NATSStatus.SetStateReady | api/v1alpha1/nats_status.go:76-81 | the whole new status after the in-place updates |
| NatsStatus.NATSStatus.SetStateError | api/v1alpha1/nats_status.go:100-104 | the whole new status after the in-place updates |
| NatsStatus.NATSStatus.SetWaitingStateForStatefulSet | api/v1alpha1/nats_status.go:91-98 | the whole new status after the in-place updates |
| NatsStatus.NATSStatus.IsEqualTo | api/v1alpha1/nats_status.go:10-20 | the method decides the status comparison |
| NatsStatus.SetFacts | api/v1alpha1/nats_status.go:31-74 | an update answers its own type with the new content, every other type and its transition time as before, and keeps types distinct |
| NatsStatus.IsEqualIffSame | api/v1alpha1/nats_status.go:10-20 | two proper statuses are equal exactly when state, URL, zones and the answer for every condition type agree, transition times aside |
| Conditions.FindCondition | api/v1alpha1/nats_status.go:22-29 | the loop returns the condition before which there is none of its type, and nothing when there is none at all |
| Conditions.SetConditionFind | api/v1alpha1/nats_status.go:31-44 | after an update in place or an append the type answers with the new content, its time moved only with its status; other types are untouched |
| Conditions.SetConditionInPlace | api/v1alpha1/nats_status.go:31-44 | an update overwrites the first condition of its type where it stands, and moves nothing else |
| Conditions.SetConditionAppends | api/v1alpha1/nats_status.go:31-44 | a condition of a new type goes to the end |
| Conditions.LastOfTypeIs | api/v1alpha1/utils.go:14-17 | with a repeated type the map filled in the loop holds the last condition of it |
| Conditions.SetConditionProper | api/v1alpha1/nats_status.go:31-74 | setters keep types distinct and non-empty |
| Conditions.ConditionsEquals | api/v1alpha1/utils.go:8-26 | the map-filling loop and the lookup loop decide the one-directional match, for any lists |
| Conditions.MatchIffPermutation | api/v1alpha1/utils.go:8-41 | the one-directional lookup decides permutation up to transition times, whatever the existing list, once the expected one has distinct non-empty types |
| Conditions.MatchEquivalence | api/v1alpha1/utils.go:8-41 | on lists with distinct non-empty types the comparison is reflexive, symmetric and transitive |
| Conditions.MatchReversesIff | api/v1alpha1/utils.go:8-41 | for any lists of non-empty types, a match holds the other way round exactly when the existing list repeats no type with another content and has no type the expected one lacks |
| Conditions.MatchAsymmetricWithDuplicates | api/v1alpha1/utils.go:8-26 | the input: there are lists, the expected one with a repeated type, that match one way round only |
| Conditions.MatchIffSameFind | api/v1alpha1/utils.go:8-41 | lists match exactly when they answer every type alike |
| Values.ViewsDetermineTree | pkg/k8s/chart/releaseinstance.go:32-44 | two nested maps that agree at every path are the same |
| Values.MergeView | pkg/k8s/chart/helmrenderer.go:115-118 | what a merge leaves at each path: the source where it says anything, else the target |
| Values.MergeIdempotent | pkg/k8s/chart/helmrenderer.go:115-118 | merging the same source again changes nothing |
| Values.LatestWins | pkg/k8s/chart/helmrenderer.go:104-121 | the merge law behind it: after any sequence of configurations of compatible shapes each path holds what the latest that set it said, else the default |
| Values.HistoryIndependentIff | pkg/k8s/chart/helmrenderer.go:104-121 | the merge law behind it: for compatible shapes, merging into used and pristine values gives the same exactly when they agree on every path the source leaves alone |
| Chart.SplitInjective | pkg/k8s/chart/releaseinstance.go:64 | distinct dotted keys have distinct tokens |
| Chart.SplitJoin | pkg/k8s/chart/releaseinstance.go:64 | splitting joined dotless tokens gives them back |
| Chart.NestedView | pkg/k8s/chart/releaseinstance.go:62-80 | a nested map holds the value at its tokens, branches above them and nothing elsewhere |
| Chart.ConvertToNestedMap | pkg/k8s/chart/releaseinstance.go:62-80 | the loop with its moving map pointer builds the nested map of all tokens |
| Chart.GetConfiguration | pkg/k8s/chart/releaseinstance.go:32-44 | whatever order the map is visited in, the result is the merge in that order, and for prefix-free keys it is the one expansion |
| Chart.EveryOrderExpands | pkg/k8s/chart/releaseinstance.go:32-44 | for prefix-free keys every iteration order yields the expansion |
| Chart.ExpansionUnique | pkg/k8s/chart/releaseinstance.go:32-44 | there is only one expansion |
| Chart.ExpansionLookup | pkg/k8s/chart/releaseinstance.go:32-44 | looking up a key's tokens gives back its configured value, to any depth |
| Chart.ExpansionLeaves | pkg/k8s/chart/releaseinstance.go:32-44 | no leaves exist but those configured |
| Chart.OrderIndependentIff | pkg/k8s/chart/releaseinstance.go:32-44 | for leaf values the order does not matter exactly when the keys are prefix-free |
| Chart.PrefixedPairClashes | pkg/k8s/chart/releaseinstance.go:32-44 | a leaf key that is a prefix of another makes the order matter |
| Chart.HelmRenderer.OverrideChartConfiguration | pkg/k8s/chart/helmrenderer.go:104-121 | the shared values change in place and stay the left fold of the chart defaults with all configurations so far |
| Chart.ConfiguredValueWins | pkg/k8s/chart/helmrenderer.go:108-121 | a configured value is what the values hold after the render, whatever came before |
| Chart.RenderTwice | pkg/k8s/chart/helmrenderer.go:108-121 | repeating a render is a no-op |
| Chart.RenderIndependentIff | pkg/k8s/chart/helmrenderer.go:104-121 | for any configurations of compatible shapes, a render is independent of history exactly when it sets every path on which earlier renders moved the values |
| Overrides.ResolveFileStorageSize | pkg/manager/overrides.go:43-65 | refused exactly below the minimum on alicloud; a supplied size is kept; a missing one is 20Gi on alicloud and 1Gi elsewhere |
| Settings.GenerateOverrides | pkg/manager/overrides.go:67-137 | refused exactly for a size below 20Gi on alicloud; otherwise each of the nineteen dotted keys, written out, holds its own field of the spec, or is absent exactly when the field asks for nothing |
| Settings.ChosenConfigured | pkg/manager/overrides.go:12-30 | the same of the specification function that the controller's requests go by |
| Settings.RenderedHold | pkg/k8s/chart/helmrenderer.go:104-121 | after a render the values hold, at each path written out, what the spec asks for, labels and annotations one by one, whatever was rendered before |
| Overrides.PathsPrefixFree | pkg/manager/overrides.go:12-30 | no key constant is a token-wise prefix of another |
| Overrides.KeyedPrefixFree | pkg/manager/overrides.go:12-30 | every set of override keys is prefix-free |
| Overrides.OverrideWins | pkg/k8s/chart/helmrenderer.go:108-121 | after a render each chosen override is what the values hold at its path, whatever came before |
| Overrides.UnassignedKept | pkg/manager/overrides.go:88-133 | a render without a key says nothing at or below its path |
| Renders.ExpansionsCompatible | pkg/manager/overrides.go:67-137 | the configurations of any two sets of overrides have compatible shapes: scalars everywhere but for flat labels and annotations |
| Renders.AnswersCompatible | pkg/k8s/chart/helmrenderer.go:104-121 | hence so has every history of the operator's renders, with chart values that fit |
| Renders.LatestRequestWins | pkg/k8s/chart/helmrenderer.go:104-121 | after any renders the shared values hold, at and below each override's path, what the latest request that set it asked for, else the chart's own value |
| Renders.LabelSurvivesRemoval | pkg/manager/overrides.go:116-124 | a label stays in the values with its last value through any number of later renders whose specs do not have it |
| Renders.HistoryMattersIff | pkg/k8s/chart/helmrenderer.go:104-121 | for any requests: a render after others differs from the same render done first exactly when an optional override it leaves out was set before to anything but the chart's value |
| Renders.ProcessHistoryMattersIff | pkg/k8s/chart/helmrenderer.go:104-121 | within one process, whose images are constant, only the storage class, the memory size, labels and annotations can do so |
| Renders.RemovedLabelMatters | pkg/manager/overrides.go:116-124 | the input: a label that is removed from the spec and not in the chart |
| Lifecycle.ClusterModeStays | api/v1alpha1/nats_types.go:129-136 | in every run stored sizes stay valid, and the `cluster.enabled` asked for while a resource lives never goes from true to false |
| Lifecycle.StoredReplicas | resources/nats/templates/statefulset.yaml:22-26 | in every run, what is rendered for a stored spec has as many replicas as the spec says |
| Overrides.ReplicasFollowSpec | resources/nats/templates/statefulset.yaml:22-26 | the rendered replicas equal the spec's size in both modes |
| Naming.FullnameKeepsName | resources/nats/templates/_helpers.tpl:9-20 | truncation and trimming never cut into the name of the resource |
| Naming.FullnameIsNameIff | resources/nats/templates/_helpers.tpl:9-20 | the chart uses the name unchanged exactly when it contains "nats" or has 62 characters or more |
| Naming.SweepIsComplete | internal/controller/nats/deprovisioner.go:125-131 | selector and prefix match every claim the StatefulSet creates, for every ordinal |
| Naming.SweepsOverlapIff | internal/controller/nats/deprovisioner.go:125-131 | two sweeps can share a claim exactly for the same resource or the pair `eventing`, `eventing-nats` of one namespace |
| Naming.SweepOfOther | internal/controller/nats/deprovisioner.go:125-131 | a claim created for one resource is swept by another's deletion exactly for that pair |
| Naming.RegistryKeyInjective | internal/controller/nats/deprovisioner.go:141-144 | registry keys tell resources apart |
| Zones.KubeClient.GetNodeZone | pkg/k8s/client.go:166-192 | a usable entry is the answer; else a zone is the answer exactly when the node is read and its `topology.kubernetes.io/zone` label has that non-empty value; without the label the error says so; only a resolved zone enters the cache |
| Zones.LookupIsLabel | pkg/k8s/client.go:181-185 | the same of the specification function the theorems on counting use |
| Zones.CountsTrueZones | pkg/k8s/client.go:217-233 | with a truthful cache, a count that succeeds counts the distinct label values of the nodes of the pods that have a node |
| Zones.SameLabelCountsOnce | pkg/k8s/client.go:217-233 | pods on any number of nodes of one label value count as one zone |
| Zones.SpreadByLabels | pkg/k8s/client.go:217-233 | spread means every pod has a node and no two of their nodes carry the same label value |
| Zones.KubeClient.GetNumberOfAvailabilityZonesUsedByPods | pkg/k8s/client.go:208-234 | succeeds exactly when every scheduled pod's zone resolves, and counts the distinct zones; otherwise the error is that of the first scheduled pod that does not resolve; the cache only grows by true lookups, also when it stops part way |
| Zones.CacheRefinesLookup | pkg/k8s/client.go:168-192 | over any sequence of lookups with any failures, where truth is a map from nodes to label values, the cache holds true non-empty zones, keeps its entries, and answers as the lookup, and as the label, whenever these can be had |
| Zones.CountKeepsTruth | pkg/k8s/client.go:208-234 | a count, complete or broken off, keeps the cache truthful and its entries unchanged |
| Zones.ZoneBounds | pkg/k8s/client.go:217-233 | zones are at most distinct nodes, which are at most pods |
| Zones.FullCountIffSpread | pkg/k8s/client.go:217-233 | as many zones as pods exactly when all pods are scheduled and no two share a zone |
| StatusRules.DecisionReaches | internal/controller/nats/provisioner.go:76-154 | each decision fixes exactly its state, URL, zone count and conditions, whatever was stored, and keeps everything else |
| StatusRules.DecisionIdempotent | internal/controller/nats/provisioner.go:76-154 | deciding again on the result changes transition times only |
| StatusRules.DecisionRespectsEqual | internal/controller/nats/provisioner.go:76-154 | equal statuses lead to equal statuses |
| StatusRules.DecisionWellFormed | internal/controller/nats/provisioner.go:22-154 | well-formed statuses lead to well-formed ones, on all paths |
| StatusRules.SpreadIsReal | internal/controller/nats/provisioner.go:111-141 | when the listed pods number the cluster size, AvailabilityZones is True exactly when the cluster has at least 3 nodes and each pod is scheduled in a zone of its own |
| Safety.StepKeeps | internal/controller/nats/controller.go:136-164 | every step of the controller and of its environment keeps the safety invariant |
| Safety.StatusesWellFormed | internal/controller/nats/status.go:22-74 | in every run every stored and every written status is well formed, and Deleting is never written |
| Safety.NoOrphanedStorage | internal/controller/nats/deprovisioner.go:122-139 | in every run a deployed resource leaves the server only after a later sweep of it completed |
| Safety.OnlyAllowedIsManaged | internal/controller/nats/controller.go:166-187 | with an allowed resource configured, no other is finalized, deployed, given a Secret or swept in any run, and its deletion is never blocked |
| Deletion.SweepExact | pkg/k8s/client.go:122-156 | a successful sweep leaves no selected claim, and no sweep removes or adds any other |
| Deletion.DeletedUpToFault | pkg/k8s/client.go:144-155 | exactly the selected claims listed before the first one that fails are deleted |
| Deletion.SweepLeavesNothing | internal/controller/nats/deprovisioner.go:122-133 | after a successful sweep no claim of the StatefulSet is left |
| Deletion.SweepSparesOthers | internal/controller/nats/deprovisioner.go:122-133 | a sweep leaves the claims of other resources, the pair aside |
| Deletion.GateOpensIff | internal/controller/nats/deprovisioner.go:39-72 | deletion proceeds exactly when a check failed, or all observed streams are `sap` and no `sap` consumer was found |
| Deletion.DeletionStep | internal/controller/nats/deprovisioner.go:24-139 | exactly when one deletion step releases the finalizer; a closed gate touches no claim and requeues; and NotFound from the sweep is exactly when a kept finalizer is neither reported nor requeued |
| Deletion.ReconcileActs | internal/controller/nats/controller.go:136-164 | a reconcile of one resource changes no other and records effects of its own only |
| Lifecycle.StallsSilently | internal/controller/nats/deprovisioner.go:131-133 | the input of the silent case: one claim that vanishes between listing and deletion |
| Deletion.BlockedHolds | internal/controller/nats/deprovisioner.go:39-70 | while the checks find a stream or a consumer, over any run the finalizer stays and no sweep of the resource starts |
| Deletion.BlockedKeepsClaims | internal/controller/nats/deprovisioner.go:39-70 | meanwhile no claim of the resource is lost, whatever happens to other resources |
| Deletion.FinalizerTaken | internal/controller/nats/utils.go:23-30 | the finalizer goes only in a reconcile of the resource itself after its deletion was requested |
| Deletion.ReleaseLeavesNothing | internal/controller/nats/deprovisioner.go:122-139 | in whatever step the finalizer goes, no claim of the StatefulSet is left on the server |
| Convergence.VerdictStable | internal/controller/nats/provisioner.go:42-104 | the same observations lead to the same verdict after a reconcile, although it may have created the Secret, started the watch or cached the provider |
| Convergence.Quiescence | internal/controller/nats/status.go:34-74 | after a completed reconcile a second one with the same observations stores nothing, transition times included, on every path |
| Convergence.DistanceFalls | internal/controller/nats/provisioner.go:37-40 | each undisturbed reconcile shortens the distance to the settled state with exactly one write, until it is 0 and stays |
| Convergence.AtMostTwoWrites | internal/controller/nats/provisioner.go:37-154 | any number of reconciles in a steady world write at most twice, and the second leaves the resource settled |
| Convergence.RunsConverge | internal/controller/nats/provisioner.go:37-154 | the same from any reachable state |
| Interleaving.VerdictShared | internal/controller/nats/provisioner.go:42-104 | without faults the verdict on a resource does not depend on the Secrets and the watch that reconciles of others leave |
| Interleaving.AtMostTwoWritesInRun | internal/controller/nats/provisioner.go:37-154 | over a run in which other resources are created, edited, reconciled and deleted in between, a live resource is written at most twice, and not after its second reconcile |
| Interleaving.RunsConvergeTogether | internal/controller/nats/provisioner.go:37-154 | the same from any reachable state |
| Convergence.StoredSpreadIsReal | internal/controller/nats/provisioner.go:111-141 | the same for the status on the server: a reconcile that counts the zones of as many pods as the cluster size leaves AvailabilityZones True exactly when all of them are spread |
| Convergence.StoredSpreadByLabels | internal/controller/nats/provisioner.go:111-141 | the same told by the zone labels of the pods' nodes |
| Transitions.TimeKeptIff | api/v1alpha1/nats_status.go:31-129 | for every decision, status and condition type: a condition whose status stays keeps its time exactly when the decision is not one for a ready StatefulSet about StatefulSet or Available, or the clock stood still |
| Transitions.RunningLook | internal/controller/nats/provisioner.go:106-151 | a ready StatefulSet stamps both conditions anew, whatever they were, and AvailabilityZones only on a change |
| Transitions.StoredStatus | internal/controller/nats/status.go:34-74 | what a reconcile leaves on the server is the old status or what the decision it took makes of it, on the live and the deletion paths |
| Transitions.StoredTimeKeptIff | internal/controller/nats/status.go:34-74 | the same exact condition for every reconcile that changes a stored status |
| Transitions.ZoneChangeMovesTimes | internal/controller/nats/provisioner.go:106-153 | for every ready resource whose observed zones change: one write, both conditions stay True, both times move |
| Transitions.TimeMovesWithoutTransition | internal/controller/nats/provisioner.go:106-153 | the input: ready in three zones since time 1, reconciled at time 2 with pods in two |
| Process.ClientConservation | internal/controller/nats/deprovisioner.go:112-158 | at every point of every run each client the process stored is registered and never closed, or closed exactly once and registered nowhere; none is stored twice |
| Lifecycle.NoClientLeaks | internal/controller/nats/deprovisioner.go:112-158 | at every point of every run each registered client belongs to a resource still on the server, being deleted and holding the finalizer |
| Lifecycle.LeavesIff | internal/controller/nats/utils.go:23-30 | a step takes a resource off the server exactly when its deletion is or was requested and the step leaves it no finalizer |
| Process.WatchStartedOnce | internal/controller/nats/provisioner.go:60-69 | the watch starts at most once a process, exactly when the flag is set |
| Process.ProviderWrittenOnce | internal/controller/nats/shoot_info.go:19-40 | once known the provider never changes and shoot-info is not read again; on alicloud every later deployment asks for at least 20Gi |
| Passwords.PasswordWrittenOnce | internal/controller/nats/controller.go:218-244 | once the looked-up Secret exists and nobody deletes it, no later reconcile of the resource applies one, through any errors and restarts |
| Passwords.SecretLeftAlone | internal/controller/nats/controller.go:218-244 | and no reconcile of any resource applies that Secret, if no other one reconciled deploys a Secret of its name |
| Passwords.SharesSecretIff | resources/nats/templates/accounts-secret.yaml:5 | another resource deploys the looked-up Secret exactly when the chart turns its name into this one's |
| Passwords.PasswordNeverRotates | resources/nats/templates/accounts-secret.yaml:1-5 | for names the chart keeps, once a reconcile applied the Secret no later one of the resource does, and none of another either, unless the chart turns that one's name into this one's |
| Passwords.SmoothAppliesIff | internal/controller/nats/controller.go:218-244 | a deployment without failures applies its Secret exactly when the looked-up one is missing |
| Passwords.SmoothAppliesToIff | internal/controller/nats/controller.go:218-244 | a deployment without failures applies the Secret another resource looks up exactly when its own looked-up one is missing and the chart turns its name into the other's |
| Passwords.FooRotatesFooNats | resources/nats/templates/_helpers.tpl:9-20 | the input: `foo` and `foo-nats` |
| Passwords.PasswordRotatesAgainIff | resources/nats/templates/accounts-secret.yaml:1-5 | a second failure-free deployment rotates the password exactly when the name has no "nats" in it and fewer than 62 characters |
| Passwords.EveryDeploymentRotates | resources/nats/templates/accounts-secret.yaml:1-5 | in every run in which nobody adds the looked-up Secret, every failure-free deployment applies the deployed one |
| Passwords.EventingRotates | resources/nats/templates/_helpers.tpl:9-20 | the input: `eventing`, deployed twice |
| Reach.HostInjective | internal/controller/nats/url/url.go:13-15 | formatted addresses tell resources apart |
| Reach.FullnameFixed | resources/nats/templates/_helpers.tpl:9-20 | the chart's name for a name is one it keeps |
| Reach.DialedIsServedIff | resources/nats/templates/service.yaml:5 | some Service the chart creates has the dialed address exactly when the chart uses the name unchanged |
| Reach.GateSees | internal/controller/nats/deprovisioner.go:36-72 | the gate closes only for what the server at the dialed address holds, does so whenever all checks are answered, and never does for a name the chart changes |
| Reach.OwnServerUnseen | internal/controller/nats/deprovisioner.go:112-139 | for a name the chart changes, deletion sweeps the claims and lets the resource go whatever its own server holds |
| Reach.EventingUnseen | internal/controller/nats/deprovisioner.go:112-139 | the input: `eventing` with a customer stream |
| Reach.CountsOwnPodsIff | internal/controller/nats/utils.go:32-38 | the counted instance label is the one a resource's pods carry exactly for two names |
| Reach.OthersStayInWarning | internal/controller/nats/provisioner.go:111-150 | a clustered resource under any other name, alone in its namespace, is stored as Warning with no zones, however its pods are spread |
| Reach.EventingSpreadIsReal | internal/controller/nats/provisioner.go:111-141 | under the two names, alone in the namespace, AvailabilityZones is stored True exactly when the resource's own pods are spread |
| Outcomes.VerdictIs | internal/controller/nats/provisioner.go:42-104 | by observations: when the way to the status decision is broken, and otherwise that readiness of all replicas decides |
| Outcomes.LiveOutcome | internal/controller/nats/provisioner.go:22-154 | by observations: exactly when a reconcile of a live resource fails, comes back after ten seconds, or is done, the forbidden path included |
| Outcomes.MissingOutcome | internal/controller/nats/controller.go:138-142 | a resource that is not there is nothing to do |
| Outcomes.LiveWrites | internal/controller/nats/status.go:34-74 | exactly what a reconcile writes to a live resource: the finalizer, or the status when it differs and can be written, or nothing |
| Outcomes.StoredReadyIff | internal/controller/nats/provisioner.go:76-154 | whenever the resource can be read and written, it shows StatefulSet True exactly when nothing failed and current, updated and ready each equal the replicas |
| Outcomes.GateSays | internal/controller/nats/deprovisioner.go:39-72 | the deletion is held with the message of what was seen: a stream that is not `sap`, or a consumer of `sap` |
| Outcomes.DeletingOutcome | internal/controller/nats/deprovisioner.go:24-139 | exactly when the reconcile of a resource being deleted fails, and exactly when it comes back at once; and exactly when its sweep fails |
| Outcomes.DeletingClient | internal/controller/nats/deprovisioner.go:112-158 | a deletion stores a client under namespace, slash and name if there was none, holds it exactly until its sweep succeeds, and touches no other |
| Outcomes.WatchAfter | internal/controller/nats/provisioner.go:59-69 | the watch is on after a reconcile exactly when it was, or Istio is there, all was deployed and the watch could start |
| Outcomes.AppliedUpToFault | pkg/manager/nats.go:66-73 | exactly the objects before the first one that fails are applied |
| Outcomes.ProviderAfter | internal/controller/nats/shoot_info.go:19-40 | with nothing cached, a provisioning reconcile caches what shoot-info answers, "" when it is not found, and nothing on any other failure |
| Outcomes.OnlyAlicloudCached | internal/controller/nats/shoot_info.go:19-40 | in every run on alicloud no process caches another provider |
| Outcomes.DeployedSize | pkg/manager/overrides.go:43-65 | every deployment asks for the size in the spec, else for 20Gi on alicloud and 1Gi elsewhere, and none for a refused size |
| Outcomes.AlicloudDeploysEnough | internal/controller/nats/shoot_info.go:19-40 | in every run on alicloud, from the first provisioning reconcile that read shoot-info on, every deployment of the process asks for at least 20Gi |

## Left out

- Concurrency within one reconcile: a reconcile is one step with current reads, as there is one worker. What others do in between is seen as failing calls and as steps before and after. One clock reading stands for all of a reconcile.
- Values.Merge: is a deep merge in which the source wins; the merge laws ask for compatible shapes, which `Renders` proves of the operator's overrides and asks of the chart's values (`Renders.Fits`); that the YAML file fits is not proved. What mergo itself does where one side has a map and the other a scalar is not part of this model, so Chart.OrderIndependentIff and Chart.PrefixedPairClashes are about that reading of a clash.
- Chart.ConvertToNestedMap: keeps nested maps as values and the moving map pointer as a path, so sharing of maps between trees, and a failing type assertion on a map just made, are not captured.
- Process.ProviderWrittenOnce: is about one process, since a restart reads shoot-info again.
- Passwords.SmoothAppliesIff: speaks of deployments in which every object can be applied; when one fails, whether the Secret was reached depends on the order of the objects, which the model fixes only as one possible order.
- StatusRules.SpreadIsReal: takes the pod list as given, as does Convergence.StoredSpreadIsReal; `Reach` says whose pods the fixed selector lists when a resource is alone in its namespace. In runs the zone count is an observation.
- Deletion.SweepLeavesNothing: takes a claim off the server when the delete call returns. A real claim in use stays, terminating, under its protection finalizer; what the code secures is that the deletion of every claim was requested and accepted.
- Deletion.ReleaseLeavesNothing: holds in the same sense, as does Safety.NoOrphanedStorage: swept means that deletion was requested for every claim.
- Naming.FullnameIsNameIff: is about the template's string expression for names up to 63 characters. Helm limits release names to 53 characters on its own, which is not part of this model; where it refuses a longer name, rendering fails, and of the condition only the part about "nats" matters.
- Strings that only name things are enumerations: condition types, reasons, fixed messages, states, the service URL, finalizers. A free error text that spells a fixed message counts as different from it.
- Quantities are numbers of base units; parsing and printing them is not modelled, and 0 stands for one that is not set.
- Only the account Secret among applied objects is kept on the modelled server; the StatefulSet's progress, pods and nodes are observations. Applying an object is idempotent.
- Helm templating and YAML parsing: only the name, label, replica and Secret conditions the properties need. The name overrides and selector overrides of the chart are taken as unset, as they are in its values.
- A resource name of more than 63 characters is no legal label value, so the source's selector does not parse; in the model that is a listing that fails.
- Reach.GateSees: puts one server behind each Service. What Service selectors route to is not part of this model.
- A NATS client that is nil in the registry is an absent one. What connecting, listing and closing do on the wire is not part of this model.
- Watches, predicates, events, metrics and logging, owner references and managed-by labels on rendered objects, and `DeleteInstance`, which nothing here calls: they touch none of the state proved about.
