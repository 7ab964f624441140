# Verified models of the repository's stateful code

This project models the three pieces of this repository that keep state or compute something, and proves what they
are for:

- the **Multiplicador operator** (`ejemplos/17 Extending Kubernetes`): custom resources with a deployment and a
  service each, and HTTPProxies shared by all resources with the same host;
- **kuard's message queue** and what uses it: the in-memory broker, the key generator with its workers and
  histories, and the debugging probe;
- the **prime test** of `primos/app.js`.

## How it is laid out

| files | what they hold |
|---|---|
| `Objects`, `ProxyLists` | the operator's records and names; the loops over owners, routes, finalizers and variables as functions |
| `Reconciler`, `Cluster` | one reconcile as a function on the cluster's stores; the imperative operator, proved to compute it |
| `DesiredState` | what the operator brings about, in the fields of deployment, service, proxy and record |
| `ProxySharing` | registration and cleanup undo each other, moves and cleanups leave the other tenants alone |
| `DirectWrites`, `IndexAgreement`, `Sweeps` | every write takes effect: whole runs of user events and reconciles; polling sweeps |
| `VersionedCalls`, `SharedProxyWorkers` | writes are checked against `resourceVersion`: repeated calls; interleaved workers |
| `MemQ` | the broker's operations as functions on a table of queues, and the broker as classes |
| `BrokerSteps`, `BrokerSafety`, `Linearizability` | the broker under concurrent calls, one lock operation a step |
| `StatsRows`, `StatsSnapshot` | what a concurrent Stats call reports, and what it does not |
| `MemQWorker`, `DrainProtocol` | the queue consumer's loop; any number of consumers emptying a queue |
| `Workload`, `KeyGen`, `KeyGenLifecycle` | the key generator's own workload; its restarts; reconfigurations and workers interleaved |
| `History`, `Probe` | the bounded history; the probe over whole runs |
| `Primos` | trial division against the definition of a prime |

The two versions of the operator share `reconcileOne`, `ensureServiceAndProxy` and `cleanupProxyForCR` line by line;
references below are to version 2, except for the sweep, which only the polling version has.

The store of `Reconciler` has two modes. With `checked` clear every write takes effect as given, as with the fake
client of the unit tests. With `checked` set it behaves like the API server: an update made from an old copy is
refused, an update that changes nothing keeps the version, status is a separate subresource, and an object being
deleted goes away with its last finalizer. The code discards the object that an update returns, so its own copy goes
stale at the first write that changes anything; `VersionedCalls` is about living with that.

Concurrent code is modelled as a transition system over its atomic steps (critical sections, lock operations, API
calls), and the theorems are about every sequence of steps.

## Where the code falls short of what one would expect

Each of these is stated with the exact condition, or with a state in which it shows.

- A proxy that registration and cleanup give back unchanged: exactly when registration overwrote nothing
  (`ProxySharing.Undoable`; same host, no entry of that uid, no route under that prefix, and not an empty proxy, which
  `ProxySharing.EmptyTargetNotRestored` shows deleted).
- The two annotations of a resource do not cover routes to its service that were left over when it took its name;
  they agree with the proxies from the start exactly when there are none but the one they may name already
  (`IndexAgreement.CreationKeepsIndexIff`), and there can be one (`IndexAgreement.NameTakenOverLeftover`).
- Hosts that differ only in dots and dashes share one proxy, and so may a resource without a host that is named like
  one (`Objects.ShareProxyIff`).
- Resources with the same proxy and prefix, or with two hosts for one proxy, take the prefix or the host from each
  other on every sweep: two sweeps settle everyone if and only if all specs are compatible
  (`Sweeps.TwoSweepsConverge`, `Sweeps.RivalsNeverSettle`). Otherwise the resource listed last wins, and the next sweep
  changes nothing exactly when the same resources come last again (`Sweeps.ThirdSweep`).
- A resource that creates its proxy gets its finalizer one reconcile later than one that joins; deleted before that
  it vanishes with its owner entry and route left behind (`IndexAgreement.DeletedAfterFirstReconcile`), and one
  reconcile settles a resource that registers exactly when it finds its proxy or carries the finalizer already
  (`Sweeps.OneReconcileSettlesIff`).
- Against checked versions three calls always reach the fixpoint, and two exactly when no more than two records are
  to be written (`VersionedCalls.TwoCallsEnoughIff`), which are three for a fresh resource
  (`VersionedCalls.FreshResourceNeedsThree`).
- Against checked versions a call registers a resource but records where only if no other write of its own comes
  first (`VersionedCalls.CallNamesIff`); moved to another proxy before that, the resource leaves its owner entry and
  route behind (`VersionedCalls.MovedBeforeRecorded`).
- Against checked versions the annotations that are to say that a resource is invalid are never recorded, only its
  status is, since the code writes both through the status subresource (`VersionedCalls.InvalidCalls`).
- Without version checks the second of two overlapping proxy writes loses the first writer exactly when it had not
  read it as an owner (`SharedProxyWorkers.LostWithoutVersions`, `FirstWriterLost`).
- With version checks an accepted registration is lost exactly when another resource, leaving the proxy on an older
  copy that shows nobody else, deletes it (`SharedProxyWorkers.LostIffDeleted`, `NewcomerLost`): the delete carries
  no version.
- With version checks a leaving resource's own entry stays in the proxy exactly when its one update comes from an
  older copy, since nobody tries again (`SharedProxyWorkers.LeaverStaysIff`).
- A Stats call's rows are a snapshot of a state exactly when each row was read while its queue's history was as long
  as in that state (`StatsSnapshot.StatsIsSnapshotIff`); they need not be one of any state
  (`StatsSnapshot.StatsIsNoSnapshot`).
- A cancelled key generator worker may still end the process, in exactly the positions of
  `KeyGenLifecycle.MayQuit`.
- A dequeue whose reply gets lost loses the message: consumers do each message at most once
  (`DrainProtocol.DrainCompletes`, `DrainProtocol.LostReplyLosesMessage`).
- `main_test.go` of the operator sets a spec field `multiplier` that the code does not read; the model follows the
  code, which reads `multiplicador`.

## Model

| member | source | states |
|---|---|---|
| Objects.Dashed | ejemplos/17 Extending Kubernetes/operator-multiplicador-v2/main.go:557-561 | The proxy name keeps the host's length and every character but the dots, which become dashes. |
| Objects.ProxyNamesAlikeIff | ejemplos/17 Extending Kubernetes/operator-multiplicador-v2/main.go:557-561 | Two hosts have the same proxy name if and only if they are equal but for dots and dashes; the name begins with vhost- and has no dot. |
| Objects.ShareProxyIff | ejemplos/17 Extending Kubernetes/operator-multiplicador-v2/main.go:557-561 | Two resources want the same proxy if and only if they are in one namespace and have such hosts, or no host and the same name, or the name of one spells the other's proxy. |
| Objects.Int32 | ejemplos/17 Extending Kubernetes/operator-multiplicador-v2/main.go:255-259 | Replicas are converted to 32 bits: the result is in range, differs from the input by a multiple of 2^32, and equals it when that is in range. |
| Objects.ServiceNameInjective | ejemplos/17 Extending Kubernetes/operator-multiplicador-v2/main.go:484-485 | Resources with different names have different services. |
| Objects.DeploymentNameInjective | ejemplos/17 Extending Kubernetes/operator-multiplicador-v2/main.go:332-333 | Resources with different names have different deployments. |
| ProxyLists.WithoutOwnerMembers | ejemplos/17 Extending Kubernetes/operator-multiplicador-v2/main.go:570-580 | Filtering owners removes exactly the entries with that uid. |
| ProxyLists.WithoutOwnerAbsent | ejemplos/17 Extending Kubernetes/operator-multiplicador-v2/main.go:570-580 | The filter gives the list back exactly when no entry has that uid. |
| ProxyLists.WithoutRouteAbsent | ejemplos/17 Extending Kubernetes/operator-multiplicador-v2/main.go:585-602 | The same for routes by prefix. |
| ProxyLists.WithoutRouteLookup | ejemplos/17 Extending Kubernetes/operator-multiplicador-v2/main.go:702-726 | Removing a prefix leaves every other prefix routed as it was. |
| ProxyLists.UpsertLookup | ejemplos/17 Extending Kubernetes/operator-multiplicador-v2/main.go:736-755 | After the merge loop the prefix leads to the new service and every other prefix to where it led. |
| ProxyLists.UpsertKeepsDistinct | ejemplos/17 Extending Kubernetes/operator-multiplicador-v2/main.go:736-755 | The merge loop introduces no second route for a prefix. |
| ProxyLists.WithoutRouteAfterUpsert | ejemplos/17 Extending Kubernetes/operator-multiplicador-v2/main.go:736-755 | Removing a prefix after merging it is the same as removing it before. |
| ProxyLists.WithoutFinalizerMembers | ejemplos/17 Extending Kubernetes/operator-multiplicador-v2/main.go:277-285 | The filtered finalizers are the others, and the length changes exactly when the operator's was there. |
| ProxyLists.SetEnvTwice | ejemplos/17 Extending Kubernetes/operator-multiplicador-v2/main.go:401-419 | Setting MULTIPLIER again to the same value changes nothing. |
| Cluster.RemoveOwner | ejemplos/17 Extending Kubernetes/operator-multiplicador-v2/main.go:571-578 | The loop computes the owners without that uid. |
| Cluster.FindOwner | ejemplos/17 Extending Kubernetes/operator-multiplicador-v2/main.go:684-693 | The search finds an owner with that uid exactly when there is one. |
| Cluster.RemoveRoute | ejemplos/17 Extending Kubernetes/operator-multiplicador-v2/main.go:586-601 | The loop computes the routes without that prefix. |
| Cluster.ReplaceOrAppendRoute | ejemplos/17 Extending Kubernetes/operator-multiplicador-v2/main.go:736-755 | The loop replaces the first route with that prefix, or appends. |
| Cluster.RemoveFinalizer | ejemplos/17 Extending Kubernetes/operator-multiplicador-v2/main.go:277-284 | The loop computes the finalizers without the operator's. |
| Cluster.AddFinalizer | ejemplos/17 Extending Kubernetes/operator-multiplicador-v2/main.go:777-788 | The finalizer is appended unless it is there. |
| Cluster.SetMultiplier | ejemplos/17 Extending Kubernetes/operator-multiplicador-v2/main.go:401-419 | The loop sets the first MULTIPLIER variable or appends one, and reports whether anything changed. |
| Cluster.Cluster.DetachProxy | ejemplos/17 Extending Kubernetes/operator-multiplicador-v2/main.go:564-628 | Leaving a proxy strips the owner entry and the recorded route, and deletes the proxy when neither owners nor routes are left. |
| Cluster.Cluster.CleanupProxyForCR | ejemplos/17 Extending Kubernetes/operator-multiplicador-v2/main.go:824-903 | Cleanup detaches the resource from the proxy it recorded, if any; everything else in the store stays. |
| Cluster.Cluster.EnsureService | ejemplos/17 Extending Kubernetes/operator-multiplicador-v2/main.go:489-539 | The service is created, or its selector, first port and owner corrected; `DesiredState.ReconcileServes` says to what. |
| Cluster.Cluster.RegisterProxy | ejemplos/17 Extending Kubernetes/operator-multiplicador-v2/main.go:630-770 | The desired proxy is created with this owner and route, or merged with them. |
| Cluster.Cluster.EnsureServiceAndProxy | ejemplos/17 Extending Kubernetes/operator-multiplicador-v2/main.go:478-792 | The new store and the new local copy are those of `Reconciler.EnsureAll`. |
| Cluster.Cluster.EnsureDeployment | ejemplos/17 Extending Kubernetes/operator-multiplicador-v2/main.go:333-427 | The deployment is created, or its replicas, owner and MULTIPLIER corrected; `DesiredState.ReconcileDeploys` says to what. |
| Cluster.Cluster.FinalizeOne | ejemplos/17 Extending Kubernetes/operator-multiplicador-v2/main.go:271-290 | A resource being deleted is cleaned up and loses the finalizer. |
| Cluster.Cluster.ApplyOne | ejemplos/17 Extending Kubernetes/operator-multiplicador-v2/main.go:318-446 | A valid resource is stamped, deployed, registered and its status reported, in this order, or status before registration when the deployment is new. |
| Cluster.Cluster.ReconcileOne | ejemplos/17 Extending Kubernetes/operator-multiplicador-v2/main.go:243-447 | One reconcile computes `Reconciler.Reconcile`, in both store modes and for every copy it is given. |
| Cluster.Cluster.ReconcileAll | ejemplos/17 Extending Kubernetes/operator-multiplicador/main.go:96-111 | A sweep reconciles the listed copies in order. |
| ProxySharing.RegisterThenCleanup | ejemplos/17 Extending Kubernetes/operator-multiplicador-v2/main.go:630-789 | Registering and then cleaning up restores every proxy, order included, if and only if registration overwrote nothing (a proxy it creates is deleted again). |
| ProxySharing.EmptyTargetNotRestored | ejemplos/17 Extending Kubernetes/operator-multiplicador-v2/main.go:883-901 | An existing proxy with neither owners nor routes is not restored: it is deleted. |
| ProxySharing.MoveConservesOthers | ejemplos/17 Extending Kubernetes/operator-multiplicador-v2/main.go:563-764 | A registration touches at most the recorded and the desired proxy, and keeps every other owner and every route under neither the recorded nor the desired prefix, in order. |
| ProxySharing.OldProxyDeletedWhenEmpty | ejemplos/17 Extending Kubernetes/operator-multiplicador-v2/main.go:607-626 | A move deletes the old proxy if and only if no other owner and no route under another prefix is left in it. |
| ProxySharing.CleanupConservesOthers | ejemplos/17 Extending Kubernetes/operator-multiplicador-v2/main.go:824-903 | Cleanup touches the recorded proxy only and keeps the other tenants there. |
| ProxySharing.ReconcileProxies | ejemplos/17 Extending Kubernetes/operator-multiplicador-v2/main.go:243-447 | A reconcile changes proxies by cleanup or by registration only, however its other writes end. |
| ProxySharing.ReconcileKeepsTidy | ejemplos/17 Extending Kubernetes/operator-multiplicador-v2/main.go:566-764 | Create, merge, rename, move and cleanup keep owners distinct by uid and routes distinct by prefix. |
| DirectWrites.ReconcileIsDirect | ejemplos/17 Extending Kubernetes/operator-multiplicador-v2/main.go:243-447 | When every write takes effect, the sequence of partial writes amounts to one new record, deployment, service and proxy map. |
| DesiredState.DecimalIff | ejemplos/17 Extending Kubernetes/operator-multiplicador-v2/main.go:406-416 | A text is the decimal the code writes for a number if and only if it consists of digits without needless zeros, after a minus sign for a negative one, and reads as that number. |
| DesiredState.DeploymentCorrected | ejemplos/17 Extending Kubernetes/operator-multiplicador-v2/main.go:379-427 | A corrected deployment has the replicas asked for (32 bits, one by default), an owner with the uid and a first MULTIPLIER that reads as the number asked for (two by default); other owners, variables and containers stay, and nothing changes if and only if it was so already. |
| DesiredState.DeploymentCreated | ejemplos/17 Extending Kubernetes/operator-multiplicador-v2/main.go:449-476 | A new deployment is as asked for, with the one owner, one container and one variable. |
| DesiredState.ServiceCorrected | ejemplos/17 Extending Kubernetes/operator-multiplicador-v2/main.go:507-539 | A corrected service has the two labels as selector, 8080 first and an owner with the uid; right ports and other owners stay, and nothing changes if and only if it was so already. |
| DesiredState.ReconcileDeploys | ejemplos/17 Extending Kubernetes/operator-multiplicador-v2/main.go:332-427 | A reconcile of a valid resource, on any store and from any copy, leaves the deployment of its name as asked for and no other touched; any other reconcile touches none. |
| DesiredState.ReconcileServes | ejemplos/17 Extending Kubernetes/operator-multiplicador-v2/main.go:478-539 | The same for the service. |
| DesiredState.ReconcileRoutes | ejemplos/17 Extending Kubernetes/operator-multiplicador-v2/main.go:541-770 | A reconcile of a valid resource with a route leaves the proxy named after its host, or after itself, with an owner of its uid, its prefix leading to its service, and its host if it has one; a new proxy holds just that. |
| DesiredState.ReconcileRecords | ejemplos/17 Extending Kubernetes/operator-multiplicador-v2/main.go:271-447 | When every write takes effect, a reconcile marks an invalid resource, stamps, indexes and reports a valid one with the numbers asked for, and takes the finalizer from a deleted one, in the fields of the record; nothing else in any record changes. |
| IndexAgreement.EventKeepsInv | ejemplos/17 Extending Kubernetes/operator-multiplicador-v2/main.go:549-628 | Every creation, with whatever annotations, every edit, deletion, act of another controller and reconcile keeps index, distinctness and cleared resources as they should be. |
| IndexAgreement.AnnotationsIndexProxies | ejemplos/17 Extending Kubernetes/operator-multiplicador-v2/main.go:549-789 | In every run a live resource has an owner entry in at most one proxy, which its annotations name, and every route to its service is in the place they name or where one was before it was created. |
| IndexAgreement.RunsStayTidy | ejemplos/17 Extending Kubernetes/operator-multiplicador-v2/main.go:566-764 | In every run owners stay distinct by uid and routes by prefix. |
| IndexAgreement.CleanupClears | ejemplos/17 Extending Kubernetes/operator-multiplicador-v2/main.go:824-903 | Cleanup of a resource whose annotations agree, but for some other places, leaves no owner entry of its uid anywhere and no route to its service but in those places. |
| IndexAgreement.FinalizedLeavesNothing | ejemplos/17 Extending Kubernetes/operator-multiplicador-v2/main.go:271-290 | In every run a resource deleted while it carries the finalizer leaves no owner entry ever after, and until its name is taken again no route but where one was before it was created. |
| IndexAgreement.CreationKeepsIndexIff | ejemplos/17 Extending Kubernetes/operator-multiplicador-v2/main.go:549-561 | In every run a new resource's annotations, with which it may come, agree with the proxies if and only if its service is routed to from no place but the one they name; from none, if it has none. |
| IndexAgreement.NameTakenOverLeftover | ejemplos/17 Extending Kubernetes/operator-multiplicador-v2/main.go:672-679 | A run after which a new resource finds a route to its service left over: one of its name was created, reconciled once and deleted. |
| IndexAgreement.DeletedAfterFirstReconcile | ejemplos/17 Extending Kubernetes/operator-multiplicador-v2/main.go:672-679 | Deleted right after its first reconcile, a resource vanishes without cleanup if and only if it created its proxy. |
| Sweeps.FirstReconcileJoins | ejemplos/17 Extending Kubernetes/operator-multiplicador/main.go:113-317 | After one reconcile every resource says whether it is valid; a valid one has deployment, service, stamp and status with the numbers its spec asks for, and with a route it has recorded and joined its proxy. |
| Sweeps.SecondReconcileSettles | ejemplos/17 Extending Kubernetes/operator-multiplicador/main.go:113-317 | After a second one a resource with a route also carries the finalizer and its prefix leads to its service. |
| Sweeps.OthersStaySettledIff | ejemplos/17 Extending Kubernetes/operator-multiplicador/main.go:551-659 | Reconciling another joined resource leaves a settled one settled if and only if their specs are compatible. |
| Sweeps.SettledIsFixed | ejemplos/17 Extending Kubernetes/operator-multiplicador/main.go:113-317 | Reconciling a settled resource changes nothing in the store. |
| Sweeps.TwoSweepsConverge | ejemplos/17 Extending Kubernetes/operator-multiplicador/main.go:96-111 | Two sweeps in any list order, over any resources, valid or not, some being deleted, from any annotations and proxies, see off the deleted ones, keep every other spec, join everyone and give each prefix and host to the last listed that claims it; they settle everyone if and only if all specs that stay are compatible, and then a third changes nothing. |
| Sweeps.ThirdSweep | ejemplos/17 Extending Kubernetes/operator-multiplicador/main.go:96-111 | Whatever the specs, a third sweep changes only who holds a contested prefix or host, and nothing at all if and only if every claim goes to the same resource as in the second. |
| Sweeps.RivalsNeverSettle | ejemplos/17 Extending Kubernetes/operator-multiplicador/main.go:612-631 | Two resources that want the same prefix of the same proxy are not both settled after two sweeps, in whatever order. |
| Sweeps.SameOrderSameWinners | ejemplos/17 Extending Kubernetes/operator-multiplicador/main.go:96-111 | Listed in the same order, the same resources win. |
| Sweeps.OneReconcileSettlesIff | ejemplos/17 Extending Kubernetes/operator-multiplicador/main.go:534-549 | One reconcile settles a resource if and only if it does not register at all, its proxy exists, or it carries the finalizer already. |
| VersionedCalls.CallIs | ejemplos/17 Extending Kubernetes/operator-multiplicador-v2/main.go:318-447 | With checked versions one call brings deployment, service and proxies to the desired state but makes only its first changing write to the resource stick. |
| VersionedCalls.ThreeCallsReachFixpoint | ejemplos/17 Extending Kubernetes/operator-multiplicador-v2/main.go:243-447 | From any state, three calls reach the fixpoint: everything as desired, and any number of further calls writes nothing. |
| VersionedCalls.FixpointIffLastStage | ejemplos/17 Extending Kubernetes/operator-multiplicador-v2/main.go:243-447 | A call changes nothing if and only if stamp, index, finalizer, status, deployment, service and proxies are all as the spec asks, field by field. |
| VersionedCalls.TwoCallsEnoughIff | ejemplos/17 Extending Kubernetes/operator-multiplicador-v2/main.go:318-447 | Two calls reach the fixpoint if and only if at most two records (annotations, index, status; the index twice when the proxy is yet to be created) are to be written. |
| VersionedCalls.FreshResourceNeedsThree | ejemplos/17 Extending Kubernetes/operator-multiplicador-v2/main.go:318-447 | An unannotated resource with a route and without a status is not done after two calls. |
| VersionedCalls.InvalidCalls | ejemplos/17 Extending Kubernetes/operator-multiplicador-v2/main.go:292-315 | Against checked versions any number of calls for an invalid resource write its status, once, and never its annotations. |
| VersionedCalls.DeletedCall | ejemplos/17 Extending Kubernetes/operator-multiplicador-v2/main.go:271-290 | Against checked versions a call for a deleted resource cleans up its proxy and takes the operator's finalizer away, and the resource goes with its last. |
| VersionedCalls.CallNamesIff | ejemplos/17 Extending Kubernetes/operator-multiplicador-v2/main.go:318-447 | A call leaves owner entry and route in the desired proxy; it leaves annotations naming it if and only if they did, or the resource was stamped and its deployment there or its status reported. |
| VersionedCalls.MovedBeforeRecorded | ejemplos/17 Extending Kubernetes/operator-multiplicador-v2/main.go:549-628 | Moved to another proxy after one call, a resource is out of the first proxy after the next call if and only if it had recorded it; otherwise owner entry and route stay there. |
| SharedProxyWorkers.StepKeepsInv | ejemplos/17 Extending Kubernetes/operator-multiplicador-v2/main.go:663-770 | Every API call of every worker, and every write of a leaving resource, keeps what stands accepted in the proxy. |
| SharedProxyWorkers.EveryMergeSurvives | ejemplos/17 Extending Kubernetes/operator-multiplicador-v2/main.go:193-235 | In every interleaving, a resource whose proxy write was accepted since the proxy was last deleted is an owner, and the prefix of its last accepted write leads to its service. |
| SharedProxyWorkers.OnlyOwnWritesChange | ejemplos/17 Extending Kubernetes/operator-multiplicador-v2/main.go:663-770 | Until somebody deletes the proxy, what was accepted for a resource changes by its own writes only. |
| SharedProxyWorkers.RefusalMeansProgress | ejemplos/17 Extending Kubernetes/operator-multiplicador-v2/main.go:664-770 | A write is refused if and only if the proxy is no longer as the worker read it. |
| SharedProxyWorkers.UndisturbedAttemptSucceeds | ejemplos/17 Extending Kubernetes/operator-multiplicador-v2/main.go:208-225 | A worker left alone gets to write the proxy if and only if its resource is valid and has a route, and is then accepted with what the spec asks for; otherwise nothing changes. |
| SharedProxyWorkers.LostWithoutVersions | ejemplos/17 Extending Kubernetes/operator-multiplicador-v2/main.go:766-770 | Without the version check, after two overlapping writes the first writer is an owner if and only if the second had read it as one. |
| SharedProxyWorkers.FirstWriterLost | ejemplos/17 Extending Kubernetes/operator-multiplicador-v2/main.go:766-770 | A run from two idle workers in which both load and fetch before either writes, both writes are accepted, and the first writer is no owner. |
| SharedProxyWorkers.LostIffDeleted | ejemplos/17 Extending Kubernetes/operator-multiplicador-v2/main.go:607-626 | A step takes an accepted registration away if and only if it is the delete of a resource leaving the proxy on a copy that shows nobody else, older than the proxy it deletes. |
| SharedProxyWorkers.NewcomerLost | ejemplos/17 Extending Kubernetes/operator-multiplicador-v2/main.go:883-901 | A run in which the only tenant leaves while a newcomer's merge is accepted, and the newcomer is lost. |
| SharedProxyWorkers.LeaverStaysIff | ejemplos/17 Extending Kubernetes/operator-multiplicador-v2/main.go:883-901 | A leaving owner is still one after its write if and only if the proxy has changed since it was read and the copy shows another owner or a route under another prefix. |
| MemQ.Broker.CreateQueue | kuard/pkg/memq/server/broker.go:67-78 | Creates the queue with all counters zero and no messages, or fails when the name is taken and changes nothing; a new queue object is fresh. |
| MemQ.Broker.DeleteQueue | kuard/pkg/memq/server/broker.go:80-89 | Removes the name, or fails when it is missing. |
| MemQ.Broker.DrainQueue | kuard/pkg/memq/server/broker.go:91-108 | Empties the queue and adds its depth to drained, or fails when it is missing. |
| MemQ.Broker.GetQueue | kuard/pkg/memq/server/broker.go:112-121 | Finds the queue exactly when the name is in the table. |
| MemQ.Broker.PutMessage | kuard/pkg/memq/server/broker.go:123-140 | Appends a message with this id and this body, returns it and counts it in depth and enqueued; or fails and changes nothing. |
| MemQ.Broker.GetMessage | kuard/pkg/memq/server/broker.go:142-158 | Removes and returns the oldest message, counted out of depth into dequeued; or reports an empty or missing queue and changes nothing. |
| MemQ.Broker.GetStats | kuard/pkg/memq/server/broker.go:160-179 | One row a queue, with that queue's four counters. |
| BrokerSteps.StepFrame | kuard/pkg/memq/server/broker.go:67-179 | A step changes its own call only; the table changes only under the broker's write lock; queue objects are never freed or renamed. |
| BrokerSteps.StepKeepsExclusion | kuard/pkg/memq/server/broker.go:67-179 | The broker lock and every queue lock exclude as read-write locks do. |
| BrokerSteps.StepKeepsSound | kuard/pkg/memq/server/broker.go:91-158 | A call's queue address stays good, and what a Drain or a Stats found in the table is still there. |
| BrokerSafety.LedgerBalances | kuard/pkg/memq/server/broker.go:91-178 | In every run, for every queue ever created: depth is the number of messages, enqueued = dequeued + drained + depth, dequeued is the number taken by Get calls, what was put is what was taken, in order, followed by what is there; every Stats row balances. |
| BrokerSafety.DeliveredAtMostOnce | kuard/pkg/memq/server/broker.go:123-158 | In every run no two calls receive the same message, and a received message was sent by the call it is named after. |
| BrokerSafety.ReceivedWasPut | kuard/pkg/memq/server/broker.go:123-158 | In every run what a Get receives has the body that the Put it is named after was given, and that Put was on the same queue name. |
| BrokerSafety.SentIsKept | kuard/pkg/memq/server/broker.go:123-158 | In every run the message of a Put that succeeded has that Put's body, and is still in a queue of that name or was taken out of one. |
| BrokerSafety.BrokerNeverDeadlocks | kuard/pkg/memq/server/broker.go:91-178 | In every reachable state with an unfinished call some call can take a step. |
| Linearizability.InsertBeforeDelete | kuard/pkg/memq/server/broker.go:110-121 | A Put or Get on a deleted queue fits in just before its delete: the order stays legal and everything from the delete on is as before. |
| Linearizability.DeleteForgets | kuard/pkg/memq/server/broker.go:80-89 | A delete forgets whatever was just done to its queue. |
| Linearizability.StepKeepsOrdered | kuard/pkg/memq/server/broker.go:67-158 | Every step of every interleaving extends the sequential order consistently. |
| Linearizability.BrokerIsLinearizable | kuard/pkg/memq/server/broker.go:67-158 | Every run of Create, Delete, Drain, Put and Get at lock granularity has a sequential order with the same results that respects real time, in which calls on one queue come in lock order and late calls on a deleted queue stand immediately before its delete. |
| StatsRows.StatsReportsEachQueue | kuard/pkg/memq/server/broker.go:160-179 | In every run a Stats call, which at some time holds the broker's read lock, returns one row for each queue of the table, which is the same whenever it does, each row with its queue's counters in a state in which the call holds the queue's lock. |
| StatsSnapshot.StatsIsSnapshotIff | kuard/pkg/memq/server/broker.go:160-179 | In every run, in a state in which a Stats call holds the broker's lock, the queues are as its rows say if and only if each row was read from a queue that had then had as many messages put and taken as in that state. |
| StatsSnapshot.UndisturbedStatsIsSnapshot | kuard/pkg/memq/server/broker.go:160-179 | If nothing is put into a queue or taken out while the call reads, its rows are a snapshot of each state in which it does. |
| StatsSnapshot.StatsIsNoSnapshot | kuard/pkg/memq/server/broker.go:166-177 | A run whose Stats rows are the queues of no state of the run. |
| MemQWorker.StartWork | kuard/pkg/keygen/memq.go:31-53 | The loop computes `MemQWorker.Work` of the replies it gets, and asks no further once it has ended. |
| MemQWorker.WorkEndsAtFirstStop | kuard/pkg/keygen/memq.go:31-63 | The worker ends at the first cancelled turn, or first empty reply if it exits on completion, having done exactly the items handed out before. |
| MemQWorker.ExitedIff | kuard/pkg/keygen/memq.go:31-45 | The worker ends the process if and only if it exits on completion and finds the queue empty before it is cancelled. |
| DrainProtocol.DrainTerminates | kuard/pkg/keygen/memq.go:31-53 | A run of n processes on m messages has at most 3m + 2n steps, two more a failed call; all are gone exactly when the steps (three more a lost message) add up to that; until then some process can step. |
| DrainProtocol.DrainCompletes | kuard/pkg/keygen/memq.go:31-53 | When all have exited the queue is empty, and every message was completed as often as it was queued, but for those lost in failed replies. |
| DrainProtocol.LostReplyLosesMessage | kuard/pkg/keygen/memq.go:34-39 | A run in which the one reply is lost, the process exits, and nobody has done the message. |
| DrainProtocol.EachDoneOnce | kuard/pkg/memq/server/broker.go:142-158 | Without failed calls a message queued once is completed once, by exactly one process. |
| DrainProtocol.EachIsAWorker | kuard/pkg/keygen/memq.go:31-53 | Every process did exactly what the worker's loop does with the replies it got. |
| KeyGen.RestartLeavesOneLive | kuard/pkg/keygen/keygen.go:55-83 | Restart leaves exactly the new worker uncancelled, if the configuration is enabled, and it runs that configuration. |
| KeyGen.KeyGen.Restart | kuard/pkg/keygen/keygen.go:55-83 | The live worker's context is cancelled; when enabled, a worker of this configuration is started with a fresh context: a consumer if and only if queue and server are both named, else a workload under the next number. |
| KeyGen.KeyGen.LoadConfig | kuard/pkg/keygen/config.go:53-57 | The configuration is replaced and a worker as it asks for started, if it is enabled. |
| KeyGen.KeyGen.WorkloadOutput | kuard/pkg/keygen/keygen.go:85-97 | The line is numbered and appended, and the oldest of twenty entries dropped. |
| KeyGenLifecycle.OneLiveWorker | kuard/pkg/keygen/keygen.go:55-83 | In every interleaving at most one started worker has an uncancelled context, and cancelFunc is set exactly when one has. |
| KeyGenLifecycle.SettledLoadsAgree | kuard/pkg/keygen/config.go:53-57 | When no load is between its unlocked write and its restart, the live worker runs the current configuration, and lives exactly if that is enabled. |
| KeyGenLifecycle.JobsFollowConfig | kuard/pkg/keygen/keygen.go:64-81 | In every interleaving a worker is a consumer if and only if its configuration names queue and server, and the workloads are numbered 0, 1, 2, … as they were started. |
| KeyGenLifecycle.EveryItemReported | kuard/pkg/keygen/workload.go:60-80 | In every interleaving each worker has written one line for each item it made, but for one it may be about to write. |
| KeyGenLifecycle.QuitsWhenComplete | kuard/pkg/keygen/workload.go:35-58 | In every interleaving a worker is on its way to end the process if and only if it exits on completion and its timer won, its number was reached without a signal, or its queue was empty, in what it has seen. |
| KeyGenLifecycle.LimitedWorkerExits | kuard/pkg/keygen/workload.go:46-57 | A workload that exits on completion, is not cancelled and has made its number ends the process by its next look, line and exit, whatever its timer says. |
| KeyGenLifecycle.WorkersKeepLimits | kuard/pkg/keygen/workload.go:30-51 | In every interleaving a cancelled worker reports at most one more finished item, and a workload limited to n items makes at most n. |
| KeyGenLifecycle.CancelledStops | kuard/pkg/keygen/workload.go:30-51 | A cancelled worker takes at most six more steps, whatever the others do. |
| KeyGenLifecycle.CancelledQuitsIff | kuard/pkg/keygen/memq.go:41-45 | A cancelled worker can still end the process if and only if its timer may win the select, it has asked the queue already, or it was about to. |
| KeyGenLifecycle.CancelledWorkerMayExit | kuard/pkg/keygen/memq.go:41-45 | A run in which a consumer cancelled while waiting ends the process. |
| KeyGenLifecycle.HistoryIsWindow | kuard/pkg/keygen/keygen.go:91-96 | In every interleaving the history is the last twenty lines of the full output, numbered from zero. |
| Workload.Worker.IsDone | kuard/pkg/keygen/workload.go:35-51 | Context, timer and limit are looked at in that order, context and timer at random when both are ready; without a time limit there is no timer. |
| Workload.Worker.StartWork | kuard/pkg/keygen/workload.go:22-33 | The loop computes `Workload.Work` of what it sees, and exits the process exactly when what it sees says so (`Workload.ExitsIff`). |
| Workload.ExitsIff | kuard/pkg/keygen/workload.go:35-57 | A run ends the process if and only if it exits on completion and the first signal is the timer, or there is a limit and no signal in one look more than it. |
| Workload.WorkExactly | kuard/pkg/keygen/workload.go:22-61 | The number of items and the way it ends, in closed form: one item a look until a signal or until there are n; a signal seen together with the n-th item wins. |
| Workload.LimitsHold | kuard/pkg/keygen/workload.go:35-61 | Never more than n items; exactly n when it ends neither cancelled nor timed out; without limits only cancellation ends it. |
| History.RecordedIsWindow | kuard/pkg/debugprobe/probe.go:115-118 | Appending and cutting keeps the history the window of the last twenty of the full log. |
| Probe.Probe.SetConfig | kuard/pkg/debugprobe/config.go:15-20 | Only the configuration changes. |
| Probe.Probe.Handle | kuard/pkg/debugprobe/probe.go:87-106 | A request fails with a count one less while there is one, for good when it is negative, and is healthy at zero; 500 or 200 is recorded with the next id. |
| Probe.Probe.RecordRequest | kuard/pkg/debugprobe/probe.go:108-119 | The entry is numbered and appended, and the oldest of twenty dropped. |
| Probe.Probe.LockedGet | kuard/pkg/debugprobe/probe.go:55-71 | The status shows the history newest first. |
| Probe.AnswersFollowLastConfig | kuard/pkg/debugprobe/probe.go:87-106 | In every run an answer depends on the last configuration and the requests since only: n failures counting down and then success, or failure for ever. |
| Probe.ExactlyNFailures | kuard/pkg/debugprobe/probe.go:93-100 | After a configuration with n, m requests bring exactly min(n, m) failures, or m when n is negative. |
| Probe.HistoryIsWindow | kuard/pkg/debugprobe/probe.go:108-119 | In every run the history is the last twenty answers of all, 200 or 500, numbered from one without a gap. |
| Probe.Drive | kuard/pkg/debugprobe/probe.go:87-119 | A probe object driven through any sequence of requests and configurations answers as the runs above say. |
| Primos.EsPrimo | primos/app.js:19-28 | True exactly for the primes, for every integer; the loop's candidates stay at or below the square root, and for a prime all of them are tried. |
| Primos.NextCandidates | primos/app.js:22-26 | With 2 and 3 excluded, testing i and i + 2 rules out every divisor up to i + 5. |
| Primos.NoDivisorUpToRoot | primos/app.js:24-27 | Testing up to the square root is enough. |
| Primos.CandidatesBelow | primos/app.js:24-25 | In the loop, i + 2 is never the number itself. |
| Primos.ObtenerPrimos | primos/app.js:31-39 | The list is strictly increasing and holds exactly the primes up to n. |
| Primos.PrimesUpToUnique | primos/app.js:31-39 | There is only one such list. |

## Left out

- Malformed objects: proxies without `metadata` or `spec`, lists of other types, numeric coercions of `getIntField`. Records are assumed well formed.
- The parts of a proxy nobody compares: weights, ports, rewrite policies and the proxy's own labels.
- Kubernetes itself: garbage collection by owner reference, admission, informers, the rate-limited queue. The store's updates and creations are modelled, and what the code does with refusals.
- Failing creates and updates of deployments and services, and a proxy update that fails without a conflict: in the sequential model nobody else writes between a read and the write that follows it. Deployments and services carry no version.
- `SharedProxyWorkers` is about one proxy whose tenants neither move to another host nor get deleted; resources that do are modelled as they leave it.
- Users do not edit the operator's annotations of a resource that is there; it may be created with any.
- Sweeps.TwoSweepsConverge: a resource being deleted waits for the operator's finalizer only; one that other finalizers keep in the list is cleaned up on every sweep and takes its recorded route away each time.
- Linearizability.BrokerIsLinearizable: Stats is not in the order, because its rows are no single snapshot; `StatsRows` and `StatsSnapshot` say what they are and are not.
- Message ids are the identities of the calls that put them; that random ids do not collide is assumed. Message bodies and times are opaque.
- DrainProtocol.DrainTerminates: the pauses after trouble are not modelled, and every process exits on completion; one that does not would ask for ever.
- KeyGenLifecycle.SettledLoadsAgree: the unlocked write of the configuration is one step; reading a half-written configuration is not modelled.
- Machine integers: ids, counters and `generated` are unbounded, and the prime test is over integers, not doubles; only the conversion of replicas to 32 bits is modelled with its wrap-around.
- HTTP handlers, JSON, the client library, key generation, logging and the web client: plumbing or foreign calls. A consumer gets an empty queue as `Empty` and every error as `Trouble`.
- `multiplica/app.js`, the load generators, charts, manifests and prose: no state to model.
