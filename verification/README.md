# Verification of the kube-awi operator

A Dafny model of the three parts of the operator that change state, with proofs of what they keep
over whole runs:

1. **The finalizer protocol.** Two reconcilers add a finalizer to a custom resource, ask the AWI gRPC
   server for a connection, and on deletion disconnect it and take the finalizer off again, while
   users create and delete, the status watcher writes, the informer cache lags behind, calls fail
   with or without effect, and the process dies and restarts.
2. **The sync loops.** Instances, VPCs and VPNs of the clouds are mirrored into custom resources, and
   network domains are derived from the VPC and VPN resources.
3. **The status watcher.** Two passes copy connection status from the AWI server into resources, one
   through an index and one by a nested scan.

## How it is organised

| file | content |
|---|---|
| `Protocol.dfy` | the protocol as a state machine: per key the window of versions between cache and API server, the versions the cache showed before, the queue flag and the program counter of `Reconcile`; the AWI server; the record of events; runs, and the kinds of restarts a run may have |
| `KeyInvariants.dfy`, `WorkInvariants.dfy` | what every action keeps, for one key and for all, in every run |
| `SystemInvariants.dfy` | what every action keeps in runs whose restarts are of a given kind: who answers for each connection |
| `Effects.dfy` | what each action reads, writes, queues, asks of the server and records, in the fields of objects and entries; what users and faults are free to do; that nobody else's finalizer is lost |
| `Safety.dfy`, `Rewinds.dfy` | no orphans, no lost work, justified removal of the finalizer; and that the conditions on restarts are exact |
| `Convergence.dfy`, `Scenarios.dfy` | live connections stay up and are exact at rest; and runs showing that the condition for it is exact |
| `Resends.dfy` | when a connect is sent again |
| `Liveness.dfy`, `Quiescence.dfy` | work on a resource ends and never gets stuck; undisturbed, the whole system comes to rest |
| `Runs.dfy` | the pieces runs are built of |
| `Reconcilers.dfy` | both `Reconcile` methods and the gRPC client as imperative code; each request they make must be an action of the state machine, and everybody else acts in between |
| `AppConnections.dfy` | app connection requests: keys, cluster name defaulting, search and disconnect |
| `SyncLoops.dfy` | the generic loops (adopt, create, prune), specified by the writes that took effect |
| `CloudSync.dfy`, `DomainSync.dfy` | the four syncers and the round that runs them |
| `StatusWatcher.dfy` | the two status passes |
| `Names.dfy`, `Wrappers.dfy` | the derived names and identifiers; `Option` and `Result` |

In the state machine an object has a uid, a resource version, a specification, a set of finalizers, a
deletion mark and a status; an update is accepted only for the current resource version, and a
deleted object without finalizers disappears. A key's `versions` run from what the cache shows (first)
to what the API server holds (last), so reading stale data and late delivery of watch events are the
general case and not an addition. `World` in `Reconcilers.dfy` carries a log that is a legal run of
the machine at every point, so the theorems about runs hold of every state the code passes through.

## What the environment is assumed to do

* Specifications of connection resources are immutable; the code ignores updates of live objects.
* Only the operator takes off its own finalizer. A finalizer is not added to an object that is
  already being deleted (Kubernetes rejects that).
* The operator is the only client of the AWI server that creates and removes connections.
* Reconciles of one key are serialised; keys interleave freely.
* A call that fails may or may not have taken effect, but does not take effect later.
* `Connect` files a connection under the identifier that `GetConnectionId` computes.
  `ConnectApps` keeps at most one entry for a pair of match name and name, with a non-empty identifier
  that no entry of another pair has.
* `Disconnect` of an absent identifier succeeds or fails without effect, like any call.
* Watch events of a key are delivered one by one and in order, so within a process the cache does not
  go backwards. A new process may list any version of a key's past, and then gets every event from
  there on. Where a theorem needs more of restarts it names the kind (`Protocol.Recency`):
  `SameConnection`, where every version from there on that makes a reconcile connect is backed by a
  stored one that carries the finalizer and asks for the same connection; `SameIncarnation`, where the
  stored one is also of the same incarnation; `Forward`, where no cache goes back. The last implies the
  others (`SystemInvariants.StricterIsLaxer`). `Convergence.Mild` is the kind where no cache shows, from
  there on, the connection of a live connected resource being given up by an earlier incarnation; it
  too is implied by `Forward` (`Convergence.ForwardRunIsMild`).
* For the sync loops, `exact` means that lists are current and nobody else writes; everything that is
  stated without it holds for arbitrary snapshots and interleaved runs. `faults` counts the requests
  that met a fault, so that "no fault" is a condition on the environment and not on the result.

## Where a property fails, and exactly when

* **A restart that lists from the past can orphan a connection.** From any reachable state, a restart
  is of the kind `SameConnection` if and only if no continuation ever orphans one
  (`Rewinds.NoOrphansIffSound`), of the kind `SameIncarnation` if and only if no continuation sends a
  connect for an incarnation that has lost the finalizer (`Rewinds.NoSentAfterDropIffSound`), and mild if
  and only if no continuation takes the connection from a live connected resource
  (`Rewinds.StayUpIffMild`, for users who never let two names ask for one connection).
  `Scenarios.RestartFromPastOrphans` is a run that ends with a connection and no resource at all.
* **A live resource can lose its connection to another one.** Given which resources users may create,
  this never happens in runs with mild restarts if and only if no two names can ask for one connection, unless none of the two
  requests can ever be sent (`Scenarios.StayUpIffExclusive`); the same condition decides whether
  the server is exact at rest (`Scenarios.ExactIffExclusive`). The two need not have the same
  specification (`Scenarios.SharedConnectionIsLost`), and they need not exist together: a late
  reconcile of a resource that is already gone disconnects once more
  (`Scenarios.LostWithoutMeeting`).
* **A live resource can be connected twice without restart.** When a reconcile connects the incarnation
  that is stored and live and returns nil, another connect can follow, without deletion and restart, if
  and only if the creation of the resource was delivered to the cache while that reconcile was under way
  (`Resends.ResendsIffCreated`); `Resends.QueuedAtReturn` is a run that gets there. Status and finalizer
  writes never cause it. Earlier restarts may list from anywhere; after one that goes back, a reconcile
  may also connect an incarnation that is not stored, of which this says nothing.
* **Disconnecting an app connection can leave its entry on the server.** It leaves none exactly when
  there was none or all entries of the key carry one non-empty identifier
  (`AppConnections.DisconnectClearsIff`; `AppConnections.EmptyIdIsNotDisconnected` is an instance).
* **Connection identifiers can be ambiguous.** That of `(s, d)` belongs to it alone exactly when
  neither contains a colon (`Names.ConnectionIdUnambiguous`).
* **Network domain names can be ambiguous.** That of a VPC belongs to it alone exactly when neither its
  provider nor its display name nor its identifier contains a dot (`Names.VpcDomainNameUnambiguous`;
  `Names.VpcDomainNameCollision` is a pair that shares one);
  when providers and identifiers of all VPCs are dot-free, display names may contain dots
  (`Names.VpcDomainNameInjective`).
* **A sync succeeds exactly when the listed names are distinct.** With a duplicate it stops
  at a rejected create and deletes nothing (`SyncLoops.SyncAll`).
* **A renamed VPC keeps its old network domain.** The domain of a stored VPC has the name of the
  listed VPC exactly when the display names agree (`DomainSync.DomainFollowsStoredName`).
* **A pod endpoint without a selector and without a cluster name kills the process**, since
  `controllers/internetworkdomainappconnection_controller.go:104` assigns through a nil
  selector. The machine has this as the action `Panic`, after which only users act until a restart, and
  the imperative code as the verdict `Panicked`, reached exactly under `AppConnections.Panics`.

## Where the code and its documentation disagree

The model follows the code.

* `README.md:161-163` says the periodic sync creates or updates resources. The syncers create
  and delete; they never update a resource that is there.
* `README.md:124-133` says `Reconcile` runs whenever a resource is created, updated or deleted. The
  event filters drop updates of live objects and all delete events.
* The comment at `pkg/sync/network_domain_sync.go:133-134` says only discovered network domains are
  deleted. One whose labels are nil is deleted too (`DomainSync.KeptIff`); what the operator derives
  itself is never protected (`DomainSync.DerivedIsUnprotected`).

## Model

| member | source | states |
|---|---|---|
| Safety.NoOrphanConnections | controllers/internetworkdomainconnection_controller.go:64-101 | in every state reachable by restarts of the kind `SameConnection`, each connection of either kind on the AWI server belongs to a stored resource that asks for it and still carries the finalizer |
| Rewinds.NoOrphansIffSound | controllers/internetworkdomainconnection_controller.go:52-101 | from any such state, a restart is of that kind if and only if no continuation ever orphans a connection |
| Rewinds.UnsoundRestartOrphans | controllers/internetworkdomainconnection_controller.go:52-101 | the run after any other restart: other claims are taken away by ordinary deletions, then a version from the past is connected |
| Rewinds.Evict | controllers/internetworkdomainconnection_controller.go:74-95 | from any reachable state a resource with the finalizer can be brought to lose it |
| Safety.NoLostWork | controllers/internetworkdomainconnection_controller.go:97-119 | in every reachable state a terminating resource with the finalizer, and a live one whose incarnation has not been connected, is queued, in work, or has an undelivered event that will queue it, wherever restarts list from |
| Safety.DropsFollowDisconnects | controllers/internetworkdomainconnection_controller.go:77-91 | over every run, when an incarnation loses the finalizer a successful disconnect came before, and no connect for it in between |
| Safety.DropsAreJustified | controllers/internetworkdomainconnection_controller.go:77-91 | nor any connect ever after, even if the name was created again, with restarts of the kind `SameIncarnation` |
| Rewinds.NoSentAfterDropIffSound | controllers/internetworkdomainconnection_controller.go:52-101 | from any state so reachable, a restart is of that kind if and only if no continuation sends a connect for an incarnation that lost the finalizer |
| Safety.DropIsRecorded | controllers/internetworkdomainconnection_controller.go:86-90 | the record is faithful: a step takes the operator's finalizer off a stored object if and only if it records a drop for that incarnation |
| Effects.RemoveWrites | controllers/internetworkdomainconnection_controller.go:86-90 | the accepted removal takes off the operator's finalizer and no other, and changes nothing else that anybody wrote; the resource is gone if and only if nobody else has a finalizer on it |
| Effects.ForeignFinalizersStay | controllers/internetworkdomainconnection_controller.go:64-95 | of all actions only a user's edit takes a finalizer other than the operator's off a stored resource |
| Effects.OthersKeepTheirResources | controllers/internetworkdomainconnection_controller.go:45-102 | over every run, with restarts from anywhere: a resource on which somebody else has a finalizer stays stored with it |
| Effects.ClearedIsGone | client/awi_client.go:86-157 | when a disconnect is recorded as successful, the server has no connection of the request, or no entry with the identifier that was found |
| Effects.DeliveryQueues | controllers/internetworkdomainconnection_controller.go:104-119 | delivering an event queues the key if and only if the event is a creation or shows the new object being deleted; the event of the disappearance leaves the flag alone |
| KeyInvariants.DropStep | controllers/internetworkdomainconnection_controller.go:86-90 | of all actions only an accepted removal update takes the finalizer off, and only when the cache has caught up with the incarnation that was disconnected |
| KeyInvariants.StaleReadIsLive | controllers/internetworkdomainconnection_controller.go:52-73 | a live object with the finalizer read from a stale cache is still the stored incarnation, with nothing else in between, and it still carries the finalizer |
| KeyInvariants.MatchIsCurrent | controllers/internetworkdomainconnection_controller.go:69-72 | an update is accepted only if the snapshot is the stored object and the cache has caught up with it |
| KeyInvariants.StepKeepsKeyInv | controllers/internetworkdomainconnection_controller.go:45-102 | every action keeps the strengthened invariant of a key: the chain of versions, the snapshot at each program counter, and that an observed deletion is being handled |
| KeyInvariants.RestartKeepsKeyInv | controllers/internetworkdomainconnection_controller.go:45-102 | the death of the process at any point keeps it, wherever in the history the new cache starts |
| KeyInvariants.StepKeepsSound | controllers/internetworkdomainconnection_controller.go:45-102 | every action keeps what the cache may still connect, and what is about to be connected, backed by the stored object |
| KeyInvariants.WakeIsPending | controllers/internetworkdomainconnection_controller.go:108-119 | while the cache does not show the stored incarnation, or not its deletion, an event that passes the filters is undelivered |
| WorkInvariants.ServedStep | controllers/internetworkdomainconnection_controller.go:97-101 | nothing but a successful connect takes a live object that the cache shows out of the reconciler's hands |
| WorkInvariants.StepKeepsBase | controllers/internetworkdomainconnection_controller.go:45-121 | every action of every party keeps what holds in all runs: work is attended to, losses of the finalizer are recorded, a removal follows a disconnect |
| WorkInvariants.ListingFinds | client/awi_client.go:133-146 | the search in any listing finds the identifier of the key's entry, and nothing if there is none |
| SystemInvariants.HeldStep | controllers/internetworkdomainconnection_controller.go:64-95 | an incarnation that answers for a connection keeps finalizer and specification through every step of its key |
| SystemInvariants.NetStep | client/awi_client.go:70-103 | every step keeps each network domain connection on the server owned by a resource that holds it |
| SystemInvariants.AppStep | client/awi_client.go:105-157 | the same for app connections, where the disconnect finds its target by listing and a listing may be out of date when it is used |
| SystemInvariants.StepKeepsInv | controllers/internetworkdomainconnection_controller.go:45-121 | every action, with restarts of the kind considered, keeps the whole invariant |
| SystemInvariants.RunKeepsInv | controllers/internetworkdomainconnection_controller.go:45-121 | every such run keeps it |
| SystemInvariants.StricterIsLaxer | controllers/internetworkdomainconnection_controller.go:52-58 | a run in which caches never go back satisfies both conditions on those that do |
| Convergence.LiveConnectionsStayUp | controllers/internetworkdomainconnection_controller.go:74-101 | if no two resource names can ask for one connection that one of them can get, no live connected resource ever loses its connection |
| Scenarios.StayUpIffExclusive | controllers/internetworkdomainconnection_controller.go:74-101 | and only then: for any set of resources users may create, the condition holds if and only if no run with them and mild restarts takes the connection from a live connected resource |
| Rewinds.StayUpIffMild | controllers/internetworkdomainconnection_controller.go:52-101 | from any state so reachable, a restart is mild if and only if no continuation takes the connection from a live connected resource |
| Convergence.SettledIsExact | controllers/internetworkdomainconnection_controller.go:45-121 | under the same condition, whenever events are delivered and no work is left, the server has exactly the connections of the live resources |
| Scenarios.ExactIffExclusive | controllers/internetworkdomainconnection_controller.go:45-121 | and only then |
| Convergence.LiveIsSecure | controllers/internetworkdomainconnection_controller.go:74-79 | while a resource is live and connected no disconnect of its connection is in progress on its key, nor can what the cache will show start one, whoever else asks for it; if caches never go back, cache and server hold this one incarnation and no disconnect at all is in progress |
| Convergence.SparesOthers | client/awi_client.go:121-157 | a step of one key leaves every connection that another key owns as it is, including an app disconnect that uses an identifier listed earlier |
| Scenarios.SharedConnectionIsLost | client/awi_client.go:181-185 | for any two names and specifications of either kind that ask for one connection, the second of which can be sent, a run after which the second is live, connected, at rest and without its connection |
| Scenarios.LostWithoutMeeting | controllers/internetworkdomainconnection_controller.go:74-95 | the same without faults and although the first is gone from the API server before the second is created |
| Scenarios.RestartFromPastOrphans | controllers/internetworkdomainconnection_controller.go:52-58 | a run that comes to rest with a connection and no resource left, after a restart that lists a version from the past |
| Scenarios.BringUp | controllers/internetworkdomainconnection_controller.go:64-101 | a new resource of either kind can be brought up: it ends with the finalizer, its connection on the server and nothing else changed |
| Scenarios.TearDown | controllers/internetworkdomainconnection_controller.go:74-95 | a resource at rest can be torn down: resource and connection are gone and nothing else changed |
| Scenarios.ConnectThenDisconnect | controllers/internetworkdomainconnection_controller.go:64-101 | creation followed by deletion undoes itself: the server and all keys are as before |
| Resends.ResendsIffCreated | controllers/internetworkdomainconnection_controller.go:104-119 | in every reachable state, wherever restarts listed from: when the reconcile of the stored live incarnation returns nil, another connect without deletion and restart is possible if and only if its creation was delivered since the key was taken from the queue |
| Resends.QueuedIffCreated | controllers/internetworkdomainconnection_controller.go:104-119 | by then the key has been queued again if and only if that happened: no status write, finalizer write, deletion or other resource queues it |
| Resends.ResendsIffQueued | controllers/internetworkdomainconnection_controller.go:104-119 | and another connect is possible if and only if it is queued |
| Resends.QuietRun | controllers/internetworkdomainconnection_controller.go:109-114 | no status pass, finalizer write or work on other resources sends another connect for a resource at rest |
| Resends.QueuedAtReturn | controllers/internetworkdomainconnection_controller.go:104-119 | a run in which the key is queued at that moment |
| Liveness.ProgressDecreases | controllers/internetworkdomainconnection_controller.go:64-101 | while a resource is terminating, or live and not connected, every undisturbed step on it decreases the measure |
| Liveness.DisturbanceIsBounded | controllers/internetworkdomainconnection_controller.go:45-102 | a fault, a write by others or a stale read raises the measure by at most a constant |
| Liveness.RestartIsBounded | controllers/internetworkdomainconnection_controller.go:45-102 | a restart by at most a constant for each version it goes back |
| Liveness.WorkTerminates | controllers/internetworkdomainconnection_controller.go:45-102 | over every run, the undisturbed steps spent on a resource that needs work are at most its measure plus a constant for each disturbance, so deletion and first connect both come |
| Liveness.WorkCompletes | controllers/internetworkdomainconnection_controller.go:45-102 | without disturbances a resource is done with within as many steps as its measure says |
| Liveness.WorkNeverStuck | controllers/internetworkdomainappconnection_controller.go:77-112 | while a resource needs work and the process runs, an undisturbed step on it is possible, or it is about to kill the process |
| Liveness.NextStepEnabled | controllers/internetworkdomainconnection_controller.go:45-102 | which step that is, in every state of cache, queue and reconciler |
| Liveness.DeadCanRestart | controllers/internetworkdomainappconnection_controller.go:101-107 | a process that the nil selector has killed can be started again without its caches going back |
| Quiescence.StepCalms | controllers/internetworkdomainconnection_controller.go:45-102 | every undisturbed step, whether its key needs work or not, brings the key closer to rest |
| Quiescence.UndisturbedIsShort | controllers/internetworkdomainconnection_controller.go:45-121 | no undisturbed run of the whole system is longer than the sum of the measures of its keys |
| Quiescence.ReachEnd | controllers/internetworkdomainconnection_controller.go:45-121 | every state of a running process has an undisturbed run to an end, where only disturbances can happen |
| Quiescence.ComesToRest | controllers/internetworkdomainconnection_controller.go:45-121 | from every reachable state: undisturbed runs are bounded, and one is at its end if and only if every key is at rest or about to kill the process |
| Quiescence.EndsExact | controllers/internetworkdomainconnection_controller.go:45-121 | and if no two names can ask for one connection and no panic is due, the server then has exactly the connections of the live resources |
| Reconcilers.ConnectionReconciler.Reconcile | controllers/internetworkdomainconnection_controller.go:45-102 | from a dequeued key, with everybody else acting between the calls: the requests made form a legal run of the protocol; nil is returned only after nothing to do, a successful connect or an accepted removal, an error only after the request that failed, and then the key is queued; after a removal the API server holds the terminating resource without the operator's finalizer and otherwise as it was, or nothing if it has no other finalizer |
| Reconcilers.AppConnectionReconciler.Reconcile | controllers/internetworkdomainappconnection_controller.go:48-113 | the same for app connections, with the cluster name filled in; the nil dereference ends the process, and only for a live pod endpoint without a selector |
| Reconcilers.AppConnectionReconciler.WithClusterName | controllers/internetworkdomainappconnection_controller.go:100-107 | the in-place defaulting computes the request that is sent, and dereferences nil exactly under `Panics` |
| Reconcilers.AwiGrpcClient.ConnectionRequest | client/awi_client.go:70-84 | one connect for the specification of the snapshot; after success the connection is on the server, asked for last by this resource |
| Reconcilers.AwiGrpcClient.DisconnectRequest | client/awi_client.go:86-103 | after success the identifier of the request is not on the server and only the removal of the finalizer is left |
| Reconcilers.AwiGrpcClient.AppConnectionRequest | client/awi_client.go:105-119 | one connect of the completed request; after success the server has it on file as sent, for this resource |
| Reconcilers.AwiGrpcClient.AppDisconnectRequest | client/awi_client.go:121-157 | search and disconnect with others acting in between: after success no entry has the identifier that was found, or the server has no entry of the request, and only the removal of the finalizer is left |
| Reconcilers.FindAppConnection | client/awi_client.go:133-141 | the loop returns the identifier at the first position where match name and name both equal those of the request, and the empty string if there is none |
| Reconcilers.AppConnectionReconciler.Finalize | controllers/internetworkdomainappconnection_controller.go:80-94 | nil only after an accepted removal, an error only after the request that failed, with the key queued; the removal leaves the stored resource as it was but for the operator's finalizer, or nothing if it has no other |
| Reconcilers.AppConnectionReconciler.Send | controllers/internetworkdomainappconnection_controller.go:100-112 | panics if and only if the selector is missing; after nil the server has the completed request on file |
| Reconcilers.World.Orphanless | controllers/internetworkdomainconnection_controller.go:45-102 | no connection is orphaned in any state the imperative reconcilers pass through |
| AppConnections.DefaultClusterKeepsKey | controllers/internetworkdomainappconnection_controller.go:100-108 | defaulting keeps the key that disconnect searches for, changes only pod endpoints without a cluster, and is idempotent |
| AppConnections.NeedsClusterIff | controllers/internetworkdomainappconnection_controller.go:100-105 | a request is completed if and only if its endpoint is of kind "pod" in any letter case and names no cluster; it cannot be if and only if there is no selector either |
| AppConnections.SameKeyIff | client/awi_client.go:135-137 | requests have one key if and only if they agree in match name and in name |
| AppConnections.FirstMatchAt | client/awi_client.go:135-141 | the entry found is the one at the first matching position |
| AppConnections.DisconnectClearsIff | client/awi_client.go:133-157 | a disconnect leaves no entry of the key if and only if there was none or all of them carry one non-empty identifier |
| AppConnections.DisconnectSparesOthers | client/awi_client.go:149-151 | with identifiers unique to keys, no other key's entry is touched |
| SyncLoops.SafeWritesConverge | pkg/sync/instance_sync.go:81-109 | for any interleaving of runs from any store, every write that took effect removes exactly one name from the difference to the listing |
| SyncLoops.SafeWritesSpare | pkg/sync/instance_sync.go:81-109 | no listed name is lost, no unlisted one created, and no stored specification replaced |
| SyncLoops.Handle | pkg/sync/vpc_sync.go:70-87 | one round of the listing loop crosses a known name off or creates it; a rejected create means the name was listed before |
| SyncLoops.AdoptOrCreate | pkg/sync/vpc_sync.go:69-88 | the listing loop makes only safe writes; exactly run, it adds the listed names, keeps what is stored and leaves over what is not listed, or fails at a duplicate having deleted nothing |
| SyncLoops.Prune | pkg/sync/network_domain_sync.go:135-144 | the delete loop removes exactly the unprotected leftovers, in whatever order the map yields them |
| SyncLoops.SyncAll | pkg/sync/vpc_sync.go:59-98 | whatever the snapshot and whoever interferes only safe writes are made; with an accurate snapshot and nobody interfering, wherever the run stops, only listed resources are created, as listed, and only stored unprotected ones deleted; if there is no fault either the run succeeds if and only if the names are distinct, then stores exactly the listed names with old specifications kept, and otherwise deletes nothing |
| SyncLoops.StoppedRun | pkg/sync/vpc_sync.go:69-98 | wherever a run stops, listed and protected resources are left alone and what is new is as listed |
| SyncLoops.TargetUnique | pkg/sync/vpc_sync.go:90-97 | the result is the same for every order of the delete loop |
| SyncLoops.WorkIsMinimal | pkg/sync/instance_sync.go:76-110 | a successful run writes once for each missing or superfluous name, and a second one writes nothing |
| SyncLoops.WritesAreMinimal | pkg/sync/network_domain_sync.go:65-146 | with protected objects, a successful run writes once for each missing listed name and once for each stored one neither listed nor protected |
| SyncLoops.RerunWritesNothing | pkg/sync/network_domain_sync.go:65-146 | the same for a second run when there are protected objects |
| CloudSync.InstanceSyncer.Sync | pkg/sync/instance_sync.go:50-111 | that contract for the instances accumulated over all clouds, so that a successful exact run leaves one for each instance of either cloud; a cloud that cannot be listed stops the run before any write |
| CloudSync.VPCSyncer.Sync | pkg/sync/vpc_sync.go:45-99 | that contract for VPCs: a successful exact run leaves one for each VPC of either cloud |
| CloudSync.VPNSyncer.Sync | pkg/sync/vpn_sync.go:44-92 | that contract for VPNs: a successful exact run leaves one for each VPN |
| CloudSync.InstanceListingDistinct | pkg/sync/instance_sync.go:56-69 | the accumulated listing has distinct names if and only if no single cloud lists an identifier twice |
| CloudSync.VpcsOfBoth | pkg/sync/vpc_sync.go:50-57 | the VPC listing is that of the first cloud followed by that of the second |
| CloudSync.ListedVpc | pkg/sync/vpc_sync.go:50-70 | an entry is in it if and only if one of the clouds lists its VPC, and it is named after provider and identifier |
| CloudSync.CloudNames | pkg/sync/instance_sync.go:56-69 | the names the syncers go through are those of what the clouds list, of either cloud and no other |
| DomainSync.NetworkDomainSyncer.Sync | pkg/sync/network_domain_sync.go:44-147 | that contract for network domains with protected objects, for the listing that the answers to the VPC and VPN lists give, stale or not; nothing is written if a list fails; wherever an exact run stops a domain whose labels are there and do not map "discovered" to "yes" is still stored as it was, and a successful one leaves these and what the resources give |
| DomainSync.StoppedRunSpares | pkg/sync/network_domain_sync.go:70-144 | wherever a run against the stored VPCs and VPNs stops, no domain that one of them gives is deleted, nor one whose labels are there and do not map "discovered" to "yes", and nothing else is created |
| DomainSync.KeptIff | pkg/sync/network_domain_sync.go:135-138 | after a successful exact run a stored domain that no VPC or VPN gives is still there, unchanged, if and only if its labels are not nil and lack "discovered" or map it to something other than "yes" |
| DomainSync.ListingDistinctIff | pkg/sync/network_domain_sync.go:70-131 | the two loops meet no duplicate if and only if different resources give different names, in whatever order they are listed |
| DomainSync.DomainsDescribeThemselves | pkg/sync/network_domain_sync.go:86-124 | the name of a derived network domain says of kind, provider, display name and identifier what its specification says; that is the VPC's, with the provider in capitals, or the VPN's; the labels say it was discovered |
| DomainSync.WellNamedGivesDistinct | pkg/sync/network_domain_sync.go:149-155 | VPC and VPN resources stored under their names give distinct network domain names |
| DomainSync.VpcsStayWellNamed | pkg/sync/vpc_sync.go:69-98 | VPC sync establishes what network domain sync needs of the VPC resources |
| DomainSync.VpnsStayWellNamed | pkg/sync/vpn_sync.go:62-91 | the same for VPN resources |
| DomainSync.RoundMirrors | pkg/sync/sync.go:66-93 | after successful VPC and VPN syncs the stored VPCs are those that AWS or GCP list, under their names, and the stored VPNs those listed; the network domain sync can fail only by a fault, and otherwise leaves one domain for each VPC, one for each VPN, those whose labels say that a user made them, and nothing else |
| DomainSync.Syncers.Sync | pkg/sync/sync.go:84-93 | the round: each syncer meets its contract whatever happened to the others, the network domain sync for the VPCs and VPNs they left, and errors are swallowed; without faults and with distinct listings all succeed and the network domains mirror the cloud |
| DomainSync.DomainFollowsStoredName | pkg/sync/network_domain_sync.go:149-151 | the domain of a stored VPC has the listed VPC's name if and only if the display names agree |
| StatusWatcher.Index | pkg/connection_status/status_watcher.go:61-64 | looking up the index is searching the list backward: the last duplicate wins |
| StatusWatcher.LastMatchAt | pkg/connection_status/status_watcher.go:61-64 | the backward search yields the entry at the last matching position |
| StatusWatcher.WantedConnAt | pkg/connection_status/status_watcher.go:61-90 | the status wanted for a resource is the name of the status at the last position with the identifier its connect files, source first, and that identifier; none if there is no such position |
| StatusWatcher.CheckConnections | pkg/connection_status/status_watcher.go:54-101 | the indexed pass asks, once, for exactly the listed resources where something differs, however stale the list: by position, a resource is asked to have the status name at the last connection with the identifier that its connect files, and that identifier, and is left alone if it has them or no connection has the identifier; with a current list every other resource is left alone; a failed list ends it without a write |
| StatusWatcher.CheckAppConnections | pkg/connection_status/status_watcher.go:103-145 | the nested scan does the same with the status name at the first entry whose match name and name are both those of the resource |
| StatusWatcher.CheckOne | pkg/connection_status/status_watcher.go:121-143 | the inner loop stops at the first entry that agrees in match name and name and asks for its status, unless the resource has it; without one it asks for nothing |
| StatusWatcher.WantedAppAt | pkg/connection_status/status_watcher.go:120-132 | the status wanted for a resource is the name of the status at the first position where match name and name agree; none if there is no such position |
| StatusWatcher.SecondPass | pkg/connection_status/status_watcher.go:86-99 | a second pass against the same list writes only to resources whose update failed in the first |
| StatusWatcher.StatusAgreesWithDisconnect | pkg/connection_status/status_watcher.go:120-144 | the entry whose status a resource gets is the entry a disconnect of that resource would look for, and remove if it has an identifier; a resource without one is left alone by both |
| Names.ConnectionIdRoundTrip | client/awi_client.go:181-185 | source and destination are read back from the identifier of a colon-free source |
| Names.ConnectionIdInjective | client/awi_client.go:181-185 | among sources without a colon the identifier determines the request |
| Names.ConnectionIdUnambiguous | client/awi_client.go:181-185 | an identifier belongs to one request alone if and only if neither end contains a colon |
| Names.CloudNameRoundTrip | pkg/sync/vpc_sync.go:101-104 | lower-cased provider and identifier are read back from the resource name, whatever characters the identifier has |
| Names.CloudNameInjective | pkg/sync/vpc_sync.go:101-104 | the resource name determines the lower-cased provider and the identifier |
| Names.SupportedCloudNames | pkg/sync/instance_sync.go:113-115 | over the supported clouds, for arbitrary identifiers, it determines both |
| Names.VpcDomainNameRoundTrip | pkg/sync/network_domain_sync.go:149-151 | kind, provider, display name and identifier are read back from a VPC domain name, dots in the display name included |
| Names.VpcDomainNameInjective | pkg/sync/network_domain_sync.go:149-151 | with dot-free provider and identifier the name determines both and the display name |
| Names.VpcDomainNameUnambiguous | pkg/sync/network_domain_sync.go:149-151 | without assumptions on other VPCs the name belongs to one VPC alone if and only if provider, display name and identifier are dot-free |
| Names.VpnDomainNameRoundTrip | pkg/sync/network_domain_sync.go:153-155 | the lower-cased identifier is read back from a VPN domain name |
| Names.VpnDomainNameInjective | pkg/sync/network_domain_sync.go:153-155 | a VPN domain name determines the lower-cased identifier and never equals a VPC domain name |
| Names.CaseOnly | pkg/sync/network_domain_sync.go:101-151 | lower-casing leaves no capital and upper-casing no small letter; letters become the same letter of the other case and everything else stays |

## Left out

- gRPC dialling, contexts, timeouts, nil requests and logging: a call succeeds, or fails with or without effect.
- controller-runtime internals: only the queue with deduplication, requeue on error, create events at start and the event filters are modelled. A relist that collapses deletion and re-creation into one update event, retry back-off and leader election are not part of the model.
- `main.go`, `StartPeriodicSync`, `WatchStatusUpdates` and their tickers: a status write is one action that may happen at any time, a sync one call.
- `pkg/sync/site_sync.go` and `pkg/sync/subnet_sync.go`: the generic loops again, with nothing new to prove; the modelled round runs the other four syncers in their order.
- `api/awi/v1alpha1`: of the resources only the fields that the modelled code reads or derives are kept; regions, labels and account names of VPCs and VPNs are opaque.
- Kubernetes name validation: an invalid name is a create that meets a fault.
- `strings.ToLower` and `strings.ToUpper` outside ASCII.
- Namespaces of synchronised resources: all are in one, and a store holds the resources of one kind.
- Failure of the AWI list that starts a status pass: the pass then ends before the part that is modelled.
- Liveness.WorkTerminates: bounds steps by disturbances and does not assume a fair scheduler.
- Rejection of a status update of a stale object by its resource version: an update that fails, of which the passes state what was asked for.
- SyncLoops.SyncAll: with a stale list or interference it states safety of the writes and not success.
