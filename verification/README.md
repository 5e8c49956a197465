# A verified model of the vCluster Rancher operator

The operator watches vCluster services on Rancher's host clusters and keeps a Rancher cluster for each of them:
a service handler per host creates and cleans up provisioning clusters, edits management clusters and installs the
Rancher agent; a controller over management clusters runs those handlers, grants and revokes cluster ownership,
removes stale clusters and finalizers. Its hard part is that all of this runs at once, over servers whose calls can
fail with or without having taken effect, from caches that lag behind the hosts.

## How the model is built

- **API servers** (`api.dfy`). A store maps (cluster, kind, namespace, name) to objects with UID, labels,
  finalizers, deletion mark and body. A call is an `Action` with its reply; `Enabled` says which replies a server
  can give in a state, `Apply` what the call leaves behind. Every call may fail, and a failed write may still have
  taken effect. `ApiServer` is the mutable server, with a log of its calls.
- **Programs** (`calls.dfy`, `program.dfy`, `rbac.dfy`, `stale.dfy`). A worker between two calls is a value that
  says which call comes next and where each reply leads. One step is one call, so anything can happen in between.
- **The code's own form** (`handler.dfy`, `controller.dfy`, `labels.dfy`, `config.dfy`, `queue.dfy`,
  `watches.dfy`). Classes and methods with the source's loops and branches. Each method that makes calls is proved
  to walk its program exactly, whatever the replies; so what is proved of all runs of a program holds of the method.
- **Outcomes** (`outcomes.dfy`, `rbac_meaning.dfy`). What one reconcile, or one ownership pass, comes to when no call
  fails and nobody acts in between, said of the stores before and after alone and with no part of a program in it.
  `reconciles.dfy` proves that every such run of the program comes to just that, `promises.dfy` what users can rely on.
- **Whole systems**. `lifecycle.dfy` lets hosts, informers, any number of workers of all handlers and the outside
  world take steps in any order; `sweeps.dfy` adds sweeps of stale clusters to it; `queue.dfy`, `peers.dfy` and
  `rbac_runs.dfy` do the same for the work queue, for concurrent reconciles of management clusters and for
  concurrent ownership passes. Their theorems are about every run.
- **Settings** (`deployment.dfy`). What a deployment can hold in the course of time: the configuration, the versions
  of services that may be there, the projects each namespace may be moved to, the UIDs a project may have, the names
  of management clusters. Promises that the code keeps only in some deployments are proved to hold in a deployment if
  and only if a condition on its setting does: for every run on the one side, and by a run from nothing, for all
  settings that fail it, on the other (`deployment_runs.dfy`). Those runs keep to all assumptions below.

Main results, by file: `promises.dfy` (services get and lose clusters and agents, failures are errors), `events.dfy`
(informer events and items), `lifecycle.dfy`, `safety.dfy`, `deployment.dfy` and `deployment_runs.dfy` (a cleanup and
live services), `uniqueness.dfy` and `doubles.dfy` (clusters per service, lookup labels), `scenarios.dfy` (what their
conditions come to for default and generated names and moved namespaces), `copies.dfy` (where labels on clusters come
from), `patches.dfy` (whose cluster a patch reaches), `stale.dfy` and `sweeps.dfy` (stale clusters), `facts.dfy` and
`placement.dfy` (every run of one worker), `queue.dfy` (no work lost), `rbac_runs.dfy`, `rbac_pass.dfy`,
`rbac_inputs.dfy`, `rbac_meaning.dfy`, `rbac_order.dfy`, `rbac_evidence.dfy` (ownership under failures, convergence,
commutation), `finalizers.dfy`, `peers.dfy`, `watches.dfy`, `labels.dfy`, `config.dfy`, `naming.dfy`, `text.dfy`,
`json.dfy`.

## Assumptions

- One `char` is one octet of a Go string.
- Reads of unstructured objects are answered by the server, not by a cache; only services come from an informer.
- UIDs are never used twice, a deletion mark is never taken back, a service is kept under its own namespace and name,
  and it does not gain or lose the label `app=vcluster`.
- The work queue has the queue/dirty/processing discipline of client-go; a rate-limited or delayed item fires some time.
- A patch made with `client.MergeFrom` is a JSON merge patch (section 2 of RFC 7386).
- An object marked for deletion is in a store only while it has finalizers (`RbacRuns.NoLeftovers`), and the server
  refuses to add new ones to it (`Api.Admits`).
- Only the operator gives provisioning clusters service UIDs (`Uniqueness.Calm`).
- In a setting, hosts post only its services, a namespace is only ever in projects the setting lists for it, a project
  has only UIDs listed for it, and so has the name of a management cluster (`Deployment.KeepsTo`). Nothing is assumed
  of when these parties act: a namespace may move and a project be made anew between any two calls.
- Where it is said so, others put a service UID on a cluster only together with the host beside it, by copying both
  from a cluster that has them, as Rancher does (`Copies.OnlyCopies`, `Copies.Copying`). The results on patches and
  sweeps need this; a cleanup's safety and the number of clusters do not, and the runs that break them keep to it.
- A host answers a listing of its services with those there at that moment (`Sweeps.HostAnswers`).
- The server appends five characters to a generateName base and cuts the base at 58 octets.
- The controller runtime reconciles one cluster name at a time (`Peers.Can`, `RbacRuns.Can`).

## Where the code differs from its own texts

- The host role that makes an owner is `cluster-owner` (internal/controller/clusters/cluster_controller.go:296), not
  the roles named in the comment at :243.
- `helm.sh/chart` is not protected from label syncing (pkg/services/handler.go:34-35), though README.md:89 says so:
  `LabelSync.ChartLabelIsNotProtected`.
- The cleanup finalizer is appended at every pending reconcile whether or not it is there
  (pkg/services/handler.go:200, against the comment at :197); `Finalizers.AccountBalances` counts it.
- A custom prefix without a trailing hyphen is limited to 57 octets, not 58 (pkg/services/handler.go:424-431).

## Where a promise needs a condition

- *A cleanup never deletes a live service's cluster.* The cleanup lists by service UID and then deletes by name. It can
  come to delete a live service's cluster exactly when two services of the deployment can be given one name in one
  workspace (`DeploymentRuns.HitsLiveExactly`): a recreated service under its default name, or neighbours whose
  default names overlap at a hyphen and whose namespaces may come into one workspace
  (`Scenarios.DefaultNamesShareExactly`, `Scenarios.SharersAreAtRisk`).
- *One provisioning cluster per service.* Two items with the same key and different UIDs can be in flight together. A
  service can come to have two clusters exactly when another service may be there under its key at another time and
  it has two names or workspaces to have (`Doubles.TwoClustersExactly`): a name is generated
  (`Scenarios.GeneratedNamesDouble`), an annotation changes, or the namespace is moved to a project with another
  workspace, the only way for a service that keeps its default name (`Scenarios.DefaultNameMovesExactly`). Step by step: exactly when a worker is at its create call while its service has
  a cluster and a fitting name is free (`Uniqueness.NextDoublesExactly`).
- *A patch reaches the service's own management cluster.* It goes by the name that was listed, so it strays exactly
  when a management cluster's name can pass from a service to another service, which has a provisioning cluster of its
  own, or to a cluster of none (`Patches.StraysExactly`).
- *A sweep deletes only clusters of services that are gone.* What it has read is of such a service for good
  (`Sweeps.SweptServiceIsOver`), but the delete goes by name too: it can hit a live service's management cluster
  exactly when that name can pass from one service to another (`Sweeps.SweepsLiveExactly`).
- *Owners are kept up to date.* A pass without failed calls ends without an error exactly when the labelled project is
  in place and every selected binding, source or grant, has a user; a binding of a group is enough to make every pass
  fail (`RbacInputs.GroupBindingFailsPasses`), and so is one of the operator's own without a user
  (`RbacInputs.UserlessGrantFailsPasses`). If it ends well, its users are the owners exactly when no owner's old grant
  was still being deleted: an owner added again meanwhile ends up with nothing, without an error
  (`RbacInputs.ReAddedOwnerIsNotServed`). Both are `RbacPass.FaultFreePassSettles`.
- *Every vCluster gets its agent.* Install jobs and agent pods are looked up by namespace only: two vClusters share them
  exactly if they are in one namespace (`HandlerFacts.JobsSharedExactly`), and the agent of one ends the installation
  for the other without an error (`HandlerFacts.AgentInNamespaceEndsInstall`).
- *A deleted cluster is let go after its app is uninstalled.* Only if neither half of its target-app label contains
  an underscore: `Finalizers.AnnotatedIsCleanable`.
- *A changed binding is noticed.* Project references are split at a colon, so the watch covers a project exactly if
  the two names have none: `Watches.ProjectWatchCovers`. A host binding is noticed exactly if it names the cluster
  whose namespace it is in: `Watches.HostWatchCovers`.

## Model

| member | source | states |
|---|---|---|
| Lifecycle.CacheMissMeansOver | pkg/services/handler.go:58-75 | an item's UID was seen under its key, so a key missing from a lagging cache means the service with that UID is gone or going, for good |
| Lifecycle.CachedDeletionMeansOver | pkg/services/handler.go:77-83 | a cached deletion timestamp means the same, however old the cache is |
| Lifecycle.CleanupsAreForDeadServices | pkg/services/handler.go:58-110 | in every run, with any lag, recreation and interleaving, a worker cleans up only for UIDs no live service has or will have |
| Deployment.AlwaysInSetting | pkg/services/handler.go:89-167 | in every run of a deployment, every provisioning cluster with a service UID, and every one a worker is about to delete for a UID, has a name which that service can be given by its annotations and its own name, in a workspace of a project its namespace may be in |
| Deployment.NeverDeletesLiveCluster | pkg/services/handler.go:89-110 | in every run of a deployment in which no two services can be given one name, with any lag, recreation and interleaving, no cleanup deletes the provisioning cluster of a service that exists without a deletion timestamp |
| DeploymentRuns.HitsLiveExactly | pkg/services/handler.go:89-110 | some run of a deployment comes to such a deletion if and only if two service UIDs of it can be given one name in one workspace, if only because a namespace may move to a project with that workspace |
| DeploymentRuns.SharedNameHits | pkg/services/handler.go:90-103 | for all settings and all pairs of services that can be given one name: a run from nothing to the deletion of the one's cluster, while it is there, by the cleanup for the other |
| Scenarios.DefaultNamesShareExactly | pkg/services/handler.go:438-442 | two services of one host under default names can be given one cluster if and only if their namespaces may be sent to one workspace and they have one namespace and name or overlap at a hyphen |
| Scenarios.SharersAreAtRisk | pkg/services/handler.go:89-110 | wherever two services can be given one cluster, as when one may be recreated, a cleanup can come to delete a live service's cluster |
| Uniqueness.NextDoublesExactly | pkg/services/handler.go:113-162 | in every reachable world with at most one cluster per service, the next step can make two if and only if a worker is at its create call while its service has a cluster and a name that fits its choice is free in its workspace |
| Uniqueness.SingleExactly | pkg/services/handler.go:112-167 | a run keeps to one cluster per service throughout if and only if no create in it took effect while its service had a cluster |
| Uniqueness.OneClusterPerService | pkg/services/handler.go:112-167 | in every run without two items of one key in flight, at most one provisioning cluster ever carries a service UID |
| Doubles.TwoClustersExactly | pkg/services/handler.go:112-167 | some run of a deployment comes to two clusters for one service UID if and only if a service of it has two names to have, or two workspaces because its namespace may move, and another service may be there under its key at another time |
| Doubles.OneClusterUnlessDoubled | pkg/services/handler.go:112-167 | in every run of any other deployment, with overlapping items and any number of workers, there is at most one |
| Doubles.OneClusterWhenNamesAgree | pkg/services/handler.go:148-162 | in particular where all versions of a service lead to one name and workspace, as its annotations, name and project have it: a later create finds the name taken |
| Doubles.OverlapMakesTwo | pkg/services/handler.go:118-156 | for all settings and all services with a rival and two names or workspaces to have: a run from nothing in which overlapping items create both, the namespace being moved between their lookups if need be |
| Scenarios.GeneratedNamesDouble | pkg/services/handler.go:422-453 | a service with a generated name that may be recreated under its key can come to have two clusters |
| Scenarios.DefaultNameMovesExactly | pkg/services/handler.go:126-147 | a service all of whose versions have one default name has two clusters it can be given if and only if its namespace may be moved between projects with different workspaces |
| Scenarios.MovedNamespaceDoubles | pkg/services/handler.go:112-167 | such a service, recreated while its namespace moves, can come to have two clusters |
| Copies.AlwaysInCopies | pkg/services/handler.go:118-156 | in every run in which others only copy labels, every provisioning or management cluster with a service UID has it from a service that was on the host its host label names and can have a cluster |
| Patches.PatchesReachOwnCluster | pkg/services/handler.go:169-215 | in every run of a deployment in which others only copy labels and no management cluster's name passes from one service to another, the cluster a patch reaches carries the UID of the service the worker works for |
| Patches.ReusedNameStrays | pkg/services/handler.go:180-210 | for all settings and all pairs of services whose management clusters may have one name: a run from nothing in which the second gets its own provisioning cluster, Rancher copies its labels to the name, and the patch meant for the first takes effect there |
| Patches.StraysExactly | pkg/services/handler.go:188-210 | some run, in which others only copy labels, comes to a patch of a cluster with another UID if and only if the name of a management cluster may pass from a service that can have a cluster to another that can, or to a cluster without a UID |
| Uniqueness.WorkersKeepLookups | pkg/services/handler.go:180-215 | no step of any worker, under any configuration, changes a lookup label of an object that stays, so lookups by service UID stay stable |
| HandlerFacts.DriftedPatch | pkg/services/handler.go:180-215 | the patch of a management cluster that has drifted since it was read: a synced label, or the target-app label, that was not read as the service calls for it becomes so; every other label keeps what was written meanwhile; finalizers change as a whole, only if edited, and nothing else changes |
| HandlerFacts.LiveServiceOnlyWritesItsOwn | pkg/services/handler.go:85-87 | a worker that finds a live service, even a recreated one, deletes no provisioning cluster; it creates provisioning clusters only with that service's UID and host, patches only management clusters it has read with that UID, and otherwise creates only auto-created workspaces and creates and deletes only install jobs of the service's namespace |
| HandlerFacts.JobsSharedExactly | pkg/services/handler.go:239-258 | two services of one host take each other's install jobs, and each other's agent pods, for their own if and only if they are in one namespace |
| HandlerFacts.AgentInNamespaceEndsInstall | pkg/services/handler.go:239-253 | in every run of the install part without failed calls: if an agent pod is in the service's namespace, whose ever it is, the part ends without an error, creates nothing and changes nothing |
| HandlerFacts.CleanupDeletesOnlyItsOwn | pkg/services/handler.go:89-110 | a cleanup lists once and deletes at most once, a cluster that was listed with the UID and this host's label |
| HandlerFacts.TakenNameOnlyWaits | pkg/services/handler.go:148-178 | a service whose cluster name is taken by another cluster is left waiting and changes nothing at all |
| Placement.CreatedClusterIsPlaced | pkg/services/handler.go:118-156 | in every run, a provisioning cluster is created with the UID of its service, its host and the project its namespace was read to be in, in the workspace configured for that project, under the service's name, after that workspace was seen or made |
| Reconciles.ReconcileComesTo | pkg/services/handler.go:58-374 | every reconcile in which no call fails and nobody acts in between, from any store and whatever the cache holds, leaves the store and returns the error that `Outcomes` states of stores alone: cluster found or made under labels, workspace and name as configured, management cluster edited, token and secret awaited, jobs tidied and one made, or the service's cluster asked to go |
| Promises.GoingServiceLosesItsCluster | pkg/services/handler.go:69-110 | a service being deleted, or gone from the cache with its UID in the item: its one provisioning cluster, labelled with this host, is asked to go and nothing else changes; without one, or with one of another host, nothing changes; no error |
| Promises.ServiceGetsItsCluster | pkg/services/handler.go:112-167 | a live imported service without a provisioning cluster gets one labelled with its UID, host and project, in the workspace configured for that, under a name its annotations ask for, unless that name is taken; given its namespace and project are there, its workspace is or may be made, and its name is not refused |
| Promises.InstallMakesJob | pkg/services/handler.go:239-336 | with no agent pod in the namespace: if no install job there is running or done without having failed, a new one is made and the result is success, or the server drew a name that is taken, which is an error; otherwise none is made |
| Promises.ServiceGetsItsAgent | pkg/services/handler.go:58-374 | the same for a whole reconcile of an imported service whose namespace, clusters, token and secret are there |
| Promises.NoFailureIsASuccess | pkg/services/handler.go:58-374 | whatever the servers reply: the first call that does not go well is the last one, and the reconcile ends with an error |
| Promises.EveryCallCounts | pkg/services/handler.go:58-374 | every call takes the worker nearer to its end, whatever the reply |
| Promises.SomeUndisturbed | pkg/services/handler.go:58-374 | from every store in which the service's management clusters take their edits, a reconcile without failures is possible |
| HandlerFacts.InstallOrdering | pkg/services/handler.go:169-337 | when a worker comes to create an install job, a management cluster with the UID existed, no agent pod was there, and the provisioning cluster was ready or token and secret were there |
| HandlerFacts.JobLoopExact | pkg/services/handler.go:260-334 | in every run, the job loop deletes only failed jobs listed before the first active or succeeded one, all of them if no call fails, and creates a job exactly when no unfailed job is active or succeeded |
| HandlerFacts.WaitingExactly | pkg/queue/queue.go:150-170 | an error counts as waiting if and only if the last reply was a missing management cluster, token or secret, a patch conflict, or an active job with nothing left to delete |
| Errors.WaitingByRoot | pkg/queue/queue.go:150-157 | wrapping never changes how an error is classified |
| ServiceHandler.Handler.Reconcile | pkg/services/handler.go:58-87 | the method makes exactly the calls of the worker program from the state its cache lookup gives, and returns the program's error; if no call fails, the store and the error are what `Outcomes` states, so a service being deleted is cleaned up |
| ServiceHandler.Handler.CleanupProvisioningCluster | pkg/services/handler.go:89-110 | walks the cleanup part of the program |
| ServiceHandler.Handler.EnsureProvisioningCluster | pkg/services/handler.go:112-167 | walks the finding or creating of the provisioning cluster, with its project labels and workspace |
| ServiceHandler.Handler.GetRancherResources | pkg/services/handler.go:169-237 | walks the edit of the management cluster and the wait for token and secret |
| ServiceHandler.Handler.DeleteFailedJobs | pkg/services/handler.go:260-275 | the loop over the jobs goes where the program's scan of the job list goes |
| ServiceHandler.Handler.EditManagementCluster | pkg/services/handler.go:180-208 | computes the edit by syncing the labels in place and appending or cutting out the finalizer |
| Queue.NoWorkLostNoneDoubled | pkg/queue/queue.go:54-170 | in every run: no item with two workers; an item with an event or failure newer than its last successful reconcile is queued, dirty, scheduled or being reconciled by a worker that began after it; the failure counter is the number of real failures since the last success or wait |
| Queue.TakesFreeNotifiedItem | pkg/queue/queue.go:131-136 | in every run, what a worker takes was put in by an event and is with no other worker, as `Lifecycle.Can` demands of a take |
| Queue.NeverOvertaken | pkg/queue/queue.go:131-142 | a queued item is never overtaken or lost; only taking the front item moves it |
| Queue.OutcomeOfReconcile | pkg/queue/queue.go:144-170 | after a failed reconcile of the service handler the item is scheduled, with the failure count reset exactly when the run stopped at something not there yet |
| Queue.OutcomeAccount | pkg/queue/queue.go:144-170 | item by item: an outcome schedules the item again exactly after an error, counts a failure exactly after one that is not waiting, resets the count otherwise, and changes nothing else |
| Queue.EventsAreOwed | pkg/queue/queue.go:54-110 | in every run, the event of a service, or of its deletion by the service or its tombstone, leaves the item with its key and UID dirty, and queued unless a worker has it, with a reconcile owed that has not begun; other items stay as and where they are |
| Queue.ChangesAreQueued | pkg/queue/queue.go:54-67 | an add event queues the item of a service with its UID, or of another object without one; an object without a key changes nothing |
| Queue.DeletionsAreQueued | pkg/queue/queue.go:85-110 | a delete event queues the item of the service, or of the service in its tombstone, with its UID, and any other changes nothing |
| Events.TasksAreEventItems | pkg/queue/queue.go:54-110 | in every run of hosts and informers, an informer's step adds to the items that workers take exactly what the event handlers queue for the event it hands over |
| Events.EveryChangeIsHandedOver | pkg/queue/queue.go:54-110 | and every change that an informer comes to see is handed over |
| Events.DeletionLooksForCluster | pkg/services/handler.go:63-90 | the item of a delete event makes a worker that finds the key gone list provisioning clusters by the UID of the deleted service |
| Queue.Handler.HandleErr | pkg/queue/queue.go:144-170 | the loop over the wait errors: success forgets, waiting forgets and delays, anything else counts and delays |
| Queue.Handler.OnAdd | pkg/queue/queue.go:54-67 | a service's item is due with its UID, in `dirty` and in `queue` unless a worker has it, and no other item is touched; an object without a key is ignored |
| Queue.Handler.OnDelete | pkg/queue/queue.go:85-110 | the item of a deleted service, or of the last known one of a tombstone, is due with its UID, and no other item is touched; anything else is ignored |
| Queue.Handler.ProcessNextWorkItem | pkg/queue/queue.go:131-142 | the front item is taken, reconciled by the service handler from what the cache holds under its key, the outcome of that handled, and the item released |
| RbacPass.FaultFreePassSettles | internal/controller/clusters/cluster_controller.go:246-383 | a pass that has ended with no failed call, however other passes interleaved and failed, has ended without an error if and only if the labelled project is in place and every source and every managed grant has a user; if so, exactly those whom the bindings made owners at the start have a grant in force if and only if no owner's grant was being deleted then, and no later pass of that cluster writes anything |
| RbacInputs.SomeFaultFreePass | internal/controller/clusters/cluster_controller.go:246-383 | from every reachable world a pass can come to its end with no failed call |
| RbacInputs.GroupBindingFailsPasses | internal/controller/clusters/cluster_controller.go:302-306 | a host's owner binding without a user, as of a group, makes such a pass end with an error |
| RbacInputs.UserlessGrantFailsPasses | internal/controller/clusters/cluster_controller.go:363-368 | and so does a grant of the operator's own without a user |
| RbacInputs.ReAddedOwnerIsNotServed | internal/controller/clusters/cluster_controller.go:309-319 | where an owner's old grant is still being deleted, such a pass ends without an error and the owner has no grant in force |
| RbacPass.EveryReplyCounts | internal/controller/clusters/cluster_controller.go:246-383 | every reply takes a pass nearer to its end |
| RbacMeaning.BackedMembershipsCount | internal/controller/clusters/cluster_controller.go:274-285 | where the project's status names a namespace, the bindings of this project in that namespace with an owner or member role make their users owners, and no project binding elsewhere counts |
| RbacMeaning.UnbackedMembershipsCount | internal/controller/clusters/cluster_controller.go:274-285 | where it names none, the same of the namespace of the project's name |
| RbacMeaning.PassLooksWhereBindingsAre | internal/controller/clusters/cluster_controller.go:248-280 | a pass reads the project its labels name, goes on only if it has the UID they name, and then lists the project bindings of that namespace |
| RbacMeaning.PassServes | internal/controller/clusters/cluster_controller.go:246-383 | a pass by itself without a failed call: without complete labels no call; else no error if and only if the labelled project is there and every binding that counts or was made by the operator has a user; then exactly those whom a binding entitles own the cluster, if and only if none of them had an old grant still going |
| RbacOrder.InterleavingsAgree | internal/controller/clusters/cluster_controller.go:287-343 | any interleaving of the same passes with the same replies is possible if one is, and ends in the same world, even where one vCluster's cluster hosts another |
| RbacOrder.StepsCommute | internal/controller/clusters/cluster_controller.go:300-378 | two steps of passes of different clusters can change places |
| RbacRuns.NoOwnerLosesAccess | internal/controller/clusters/cluster_controller.go:300-382 | under any failures and interleaving no step takes an owner's grant, and nothing is revoked unless every owner has a grant and every source a user |
| RbacEvidence.RevokesOnlyAfterGranting | internal/controller/clusters/cluster_controller.go:279-378 | in every run, with any replies and any changes by others in between, a pass deletes only a listed binding of its own for a user who is none of the owners it has read, after finding or making the grant of every one of these |
| RbacSteps.GrantsNameTheirSource | internal/controller/clusters/cluster_controller.go:320-338 | every grant gives ownership of this cluster to the user of a source that is there, and its parent label points back at such a source by kind and name |
| RbacRuns.EachWriteDoesOne | internal/controller/clusters/cluster_controller.go:325-378 | every call that changes the store does exactly one piece of its own cluster's work (missing owners plus surplus bindings) and none of another's |
| RbacRuns.WritesBalanceWork | internal/controller/clusters/cluster_controller.go:300-382 | over any run, writes made plus work left is the work there was: a bound for all retries |
| RbacRuns.FinishedPassConverges | internal/controller/clusters/cluster_controller.go:354-383 | a pass that ends without an error after its last listing leaves its cluster converged, and no step of any pass undoes that |
| RbacSteps.WritesAreGrantsOrRevocations | internal/controller/clusters/cluster_controller.go:300-378 | whatever changed meanwhile, a pass writes nothing but grants for missing owners and revocations of managed bindings of non-owners |
| Rbac.ProjectSourcesExact | internal/controller/clusters/cluster_controller.go:274-285 | the filter loops select exactly the project's bindings with an owner or member role in the namespace that the project's status names, or else in that of its name |
| Rbac.SourcesExact | internal/controller/clusters/cluster_controller.go:284-298 | together with the host's unlabelled cluster-owner bindings these are all the sources |
| Rbac.SameBaseSameOwners | internal/controller/clusters/cluster_controller.go:287-296 | derived grants never sustain grants: owners depend only on what the operator did not make |
| Api.FilterItems | pkg/unstructured/client.go:106-117 | the loop computes the filtered list |
| Api.FilteredExact | pkg/unstructured/client.go:106-117 | filtering keeps exactly the entries that pass |
| Controller.ClusterReconciler.SyncRancherRBAC | internal/controller/clusters/cluster_controller.go:246-383 | the method walks the pass program, whose calls `RbacMeaning` pins to the objects |
| Controller.ClusterReconciler.GrantOwnership | internal/controller/clusters/cluster_controller.go:300-346 | the granting loop walks its part and fills the owner set with the users of the sources |
| Controller.ClusterReconciler.RevokeSurplus | internal/controller/clusters/cluster_controller.go:348-382 | the revoking loop walks its part |
| Controller.ClusterReconciler.SyncStaleResources | internal/controller/clusters/cluster_controller.go:604-660 | the method walks the sweep program |
| Stale.SweepExact | internal/controller/clusters/cluster_controller.go:604-660 | a sweep without failures deletes the management cluster exactly if its service is not on its host, and touches nothing else |
| Stale.SweepErrsExactly | internal/controller/clusters/cluster_controller.go:604-660 | whatever the replies, a sweep ends with an error if and only if it had to reach the host and could not, or a call failed |
| Stale.QuietExactlyWhenClean | internal/controller/clusters/cluster_controller.go:601-660 | sweeping every management cluster changes nothing if and only if each labelled one whose host has a handler has its service there or is being deleted already |
| Sweeps.SweptServiceIsOver | internal/controller/clusters/cluster_controller.go:604-655 | in every run, with anything happening between its read, its listing of the host and its delete, a sweep that comes to its delete has read the cluster of a service that is gone or going, for good |
| Sweeps.NeverSweepsLiveCluster | internal/controller/clusters/cluster_controller.go:633-657 | in every run of a deployment in which others only copy labels and no management cluster's name passes from one service to another, no sweep deletes the management cluster of a service that exists without a deletion timestamp |
| Sweeps.SweepsLiveExactly | internal/controller/clusters/cluster_controller.go:633-657 | some run, in which others only copy labels, comes to such a delete if and only if the name of a management cluster may pass from one service that can have a cluster, on a host with a name, to another that can |
| Controller.ClusterReconciler.SyncCleanup | internal/controller/clusters/cluster_controller.go:385-446 | makes exactly the one patch that is decided on, or none, and errs exactly when it must |
| Finalizers.CleanupAccount | internal/controller/clusters/cluster_controller.go:385-446 | a cleanup edits exactly a deleting cluster with a readable label, after uninstalling, that still holds the finalizer; it removes one occurrence and nothing else |
| Finalizers.RefusedExactly | internal/controller/clusters/cluster_controller.go:385-428 | a cleanup is refused exactly on a deleting cluster with a target-app label that cannot be read or whose app was not uninstalled |
| Finalizers.CleanupsRunOut | internal/controller/clusters/cluster_controller.go:429-444 | without additions every cleanup takes one occurrence until none is left, further ones change nothing, and the cluster is then gone unless other finalizers hold it |
| Finalizers.HandlerAccount | pkg/services/handler.go:187-215 | a pending reconcile adds exactly one occurrence or removes at most one, a ready one changes none; other finalizers keep order and number |
| Finalizers.AccountBalances | pkg/services/handler.go:197-210 | over any life of a cluster, served, deleted and cleaned up in any order until it is gone: occurrences plus removals equal the initial ones plus one per pending annotated reconcile the server takes, and the other finalizers stay |
| Finalizers.AdmittedExactly | pkg/services/handler.go:197-210 | the server refuses a reconcile's patch if and only if it would add the finalizer to a cluster that is being deleted and does not have it |
| Finalizers.AnnotatedIsCleanable | pkg/services/handler.go:204-204 | a cluster annotated for uninstallation can be cleaned up exactly if its release's namespace and name have no underscore |
| Peers.OneHandlerPerCluster | internal/controller/clusters/cluster_controller.go:96-207 | over every interleaving of reconciles, a name is in the book exactly when a handler runs for it, never two, and none after a reconcile found the cluster gone |
| Peers.OnlyReadyClustersLaunch | internal/controller/clusters/cluster_controller.go:122-206 | handlers start only from a reconcile that found the cluster ready and set everything up, and stop only when it is gone |
| Peers.ReadyClusterIsServed | internal/controller/clusters/cluster_controller.go:96-207 | in every run, a worker at the lock for a ready cluster leaves a handler running for it if there was one or setting it up works, and changes nothing otherwise; for a gone cluster it leaves none; all other handlers run on |
| Peers.ReadyClusterComesToLock | internal/controller/clusters/cluster_controller.go:99-130 | a worker comes to the lock for a ready cluster, or for a gone one, exactly if that is what it found |
| Peers.InstallingRuns | internal/controller/clusters/cluster_controller.go:139-207 | installing leaves a handler running if there was one or the attempt works, with the others as they were, and else changes nothing |
| Peers.DroppingStops | internal/controller/clusters/cluster_controller.go:98-112 | dropping leaves no handler for the name and the others as they were |
| Controller.ClusterReconciler.Reconcile | internal/controller/clusters/cluster_controller.go:96-137 | a gone cluster loses its handler, an unreadable one is left alone, any other goes through all syncs, each whether or not the ones before failed, and is requeued exactly if a part failed; a ready one has a handler running afterwards if it had one or setting it up works |
| Controller.ClusterReconciler.SyncAll | internal/controller/clusters/cluster_controller.go:118-136 | all parts walk their programs; the reconcile is requeued exactly if a part failed |
| Controller.ClusterReconciler.SyncvClusterInstallHandler | internal/controller/clusters/cluster_controller.go:139-207 | no error if and only if there is a handler or the attempt works; then a handler runs for the cluster and the others are as before, and else nothing changes |
| Controller.IsClusterReady | internal/controller/clusters/cluster_controller.go:209-224 | the loop finds whether some condition is Ready with status True |
| Controller.ReadyAsListed | internal/controller/clusters/cluster_controller.go:209-224 | ready is exactly what some condition listed in the status says |
| Watches.ProjectWatchCovers | internal/controller/clusters/cluster_controller.go:559-582 | a cluster that counts a project binding is enqueued for it if and only if neither name in the project reference has a colon |
| Watches.HostWatchCovers | internal/controller/clusters/cluster_controller.go:584-599 | a cluster that counts a host binding is enqueued for it if and only if the binding names the cluster whose namespace it is in |
| Watches.ClustersRelatedToTargetProject | internal/controller/clusters/cluster_controller.go:559-582 | makes the mapping's calls and returns the names of the clusters listed, filled in by index |
| Watches.ClustersHostedByClusterTarget | internal/controller/clusters/cluster_controller.go:584-599 | makes the mapping's call and returns the names of the clusters listed, filled in by index |
| LabelSync.SyncLabels | pkg/services/handler.go:376-411 | the nested loops, in whatever order the maps are walked, leave exactly the pointwise result |
| LabelSync.SyncPointwise | pkg/services/handler.go:376-411 | for every configuration read from the environment: matched, not excluded, unprotected keys follow the service, all others stay |
| LabelSync.SyncIdempotent | pkg/services/handler.go:376-411 | syncing twice is syncing once |
| LabelSync.ProtectedExactly | pkg/services/handler.go:32-35 | the protected labels are exactly four keys of Helm and three prefixes |
| LabelSync.SyncKeepsLookups | pkg/services/handler.go:32-36 | no configuration lets the sync touch the operator's lookup labels |
| LabelSync.EmptyConfigChangesNothing | pkg/services/handler.go:376-411 | an unconfigured operator changes no label with a nonempty key |
| LabelSync.ChartLabelIsNotProtected | pkg/services/handler.go:34-35 | the Helm chart label is not among the protected ones |
| Config.LoadConfigFromEnv | pkg/config/config.go:20-52 | the loops read exactly the mappings and patterns that the environment's lists denote |
| Config.MappingsExact | pkg/config/config.go:24-33 | a key is mapped to a value exactly if the last entry for it says so; what is not `key:value` is skipped |
| Config.PatternsMean | pkg/config/config.go:35-49 | a pattern with a star at its end matches what begins with the rest, any other matches itself alone |
| Config.MappingsRoundTrip | chart/templates/manager.yaml:50-61 | what the chart prints for a separator-free mapping is read back as that mapping |
| Config.MappedWorkspace | pkg/services/handler.go:479-484 | every mapped project gets its own workspace, every other the default |
| Json.GetNestedExact | pkg/unstructured/client.go:88-104 | for every wanted type, trees included, GetNested is the path lookup exactly if no value of that type is met on the way |
| Json.ReadingsExact | pkg/unstructured/client.go:88-104 | texts and flags are those at the end of the path, empty or false where there is none, unless one is met on the way |
| Text.ParseHalvesExact | internal/controller/clusters/cluster_controller.go:662-668 | parsing gives two halves exactly for their join with one separator in neither |
| Naming.NamesFitAndKeepTheirBase | pkg/services/handler.go:413-454 | every accepted name has at most 63 octets (section 2.3.4 of RFC 1035) once completed, and its base survives whole |
| Naming.NameRefusedExactly | pkg/services/handler.go:413-436 | an annotation is refused exactly if it cannot be kept within 63 octets |
| Naming.NamedAsAsked | pkg/services/handler.go:413-454 | a cluster can get a name if and only if it is the custom name as written, the custom prefix with a hyphen and five characters, or else host, namespace and name with hyphens, cut and completed where that is longer than 63 octets |
| Naming.DefaultNamesCollideExactly | pkg/services/handler.go:438-442 | two services share a default name exactly if their namespaces and names overlap at a hyphen |

## Left out

- Start-up, flags, TLS and metrics (`cmd/main.go`), credentials and kubeconfigs (`pkg/token`), URLs (`pkg/rancher`).
- The uninstall request of the cleanup: its outcome is the parameter `uninstalled`.
- Setting up clients and informers: their outcomes are the parameters `reachable` and `attempt`.
- `SyncResourceLimits`: it copies quantity strings into the cluster's status; its outcome is the parameter `metrics`.
- The job's pod and command: only that a job exists, and its status counters.
- Delays and backoff: only the failure counter and that an item is scheduled.
- Log and error texts, except how errors wrap each other.
- `OnUpdate`: the same code as `OnAdd`.
- The queue's shutdown; a worker that finds the queue empty does nothing instead of blocking.
- Two finalizer-list patches that overwrite each other: the account is for edits that follow one another.
- ServiceHandler.Handler.Reconcile: does not refresh the informer's cache itself; `lifecycle.dfy` moves the cache.
- Restarts: a run of `lifecycle.dfy` starts from any history with empty caches and queues, so a restart is a new run.
- `ForEachItem`: its callback is written out in the loop it runs in.
- Changes to role bindings by users while passes run: `rbac_runs.dfy` has fixed sources
  and cluster labels, as the convergence promise does; `RbacEvidence.RevokesOnlyAfterGranting` allows any change.
