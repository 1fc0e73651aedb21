/** The reconcilers and the gRPC client as the code writes them, calling the API server and the AWI
    server one request at a time while everybody else acts in between.

    `World` keeps the state of the protocol and the log of the actions that led to it. Each request
    is one action of the log, so a reconcile verifies only if its calls, their order and their
    arguments are those of the state machine, and everything proved of all runs holds of every
    state it passes through. That the process may die at any of these points, of itself or by another
    reconcile's nil dereference, is the machine's `Restart` and `Panic`; such a run of the code ends
    there. */
module Reconcilers {
  import opened AppConnections
  import opened KeyInvariants
  import opened Names
  import opened Protocol
  import opened Safety
  import opened SystemInvariants
  import opened WorkInvariants
  import opened Wrappers

  datatype GetResult = GetFailed | NotFound | Found(obj: Object)

  /** `Reconcile` returns nil or an error, or the Go runtime panics. */
  datatype Verdict = Returned(err: bool) | Panicked

  /** The actions `Reconcile` itself performs for a key. */
  predicate OwnAction(a: Action, k: Key) {
    !a.Restart? && a.key == k
    && (a.Dequeue? || a.Get? || a.Add? || a.Connect? || a.Disconnect? || a.ListApps? || a.DisconnectApp? || a.Remove?
        || a.Panic?)
  }

  /** The last request of a reconcile that returned nil: there was nothing to do, the connection was
      made, or the finalizer was removed. */
  predicate EndsWell(a: Action, k: Key) {
    a == Get(k, true) || EndsConnected(a, k) || a == Remove(k, Ok)
  }

  /** The last request was a connect that succeeded. */
  predicate EndsConnected(a: Action, k: Key) {
    a.Connect? && a.key == k && a.out.Ok?
  }

  /** The last request of a reconcile that returned an error: the one that failed. */
  predicate EndsBadly(a: Action, k: Key) {
    || a == Get(k, false)
    || (a.ListApps? && a.key == k && !a.ok)
    || ((a.Add? || a.Connect? || a.Disconnect? || a.DisconnectApp? || a.Remove?) && a.key == k && !a.out.Ok?)
  }

  /** The API server has accepted a submitted object: it holds it under a new resource version, or nothing
      if the object is being deleted and carries no finalizer. */
  predicate StoredAs(submitted: Object, v: Version) {
    if submitted.deleting && submitted.finalizers == {} then v.Absent?
    else v.Present? && v.obj.(rv := submitted.rv) == submitted
  }

  /** A terminating resource loses the operator's finalizer and nothing else. */
  predicate Released(v: Version, v': Version) {
    Terminating(v) && StoredAs(v.obj.(finalizers := v.obj.finalizers - {Awi}), v')
  }

  /** What others do leaves the reconciler of a key where it stands. */
  lemma OthersKeepPC(s: State, a: Action, k: Key)
    requires Enabled(s, a) && !a.Restart? && !OwnAction(a, k)
    ensures KS(Next(s, a), k).pc == KS(s, k).pc
  {
  }

  class World {
    var s: State
    ghost var log: seq<Action>
    /** The state in which the last action of the log was performed. */
    ghost var before: State
    const cluster: string

    ghost predicate Valid()
      reads this
    {
      && Legal(Init(cluster), log) && Fresh(SameConnection, Init(cluster), log)
      && Exec(Init(cluster), log) == s && s.cluster == cluster
    }

    /** The operator process is alive. */
    ghost predicate Running()
      reads this
    {
      Valid() && s.up
    }

    constructor (cluster: string)
      ensures Running() && s == Init(cluster) && log == []
    {
      this.cluster := cluster;
      s := Init(cluster);
      log := [];
      before := Init(cluster);
    }

    /** One atomic step. */
    method Act(a: Action)
      requires Valid() && Enabled(s, a) && FreshStep(SameConnection, s, a)
      modifies this
      ensures Valid() && s == Next(old(s), a) && log == old(log) + [a] && before == old(s)
    {
      ExecSnoc(Init(cluster), log, a);
      FreshSnoc(SameConnection, Init(cluster), log, a);
      before := s;
      s := Next(s, a);
      log := log + [a];
    }

    /** The nil dereference. */
    method Die(k: Key)
      requires Running() && KS(s, k).pc.AtConnect? && !Sendable(KS(s, k).pc.snap.spec)
      modifies this
      ensures Valid() && !s.up && log == old(log) + [Panic(k)]
      ensures KS(s, k) == old(KS(s, k))
    {
      Known(k);
      Act(Panic(k));
    }

    /** Users, the status watcher, the informer, the queue and the reconciles of other keys. */
    method Interfere(k: Key)
      requires Running()
      modifies this
      ensures Running() && old(log) <= log
      ensures forall i :: |old(log)| <= i < |log| ==> !OwnAction(log[i], k)
      ensures KS(s, k).pc == old(KS(s, k).pc)
    {
      var n: nat := *;
      while n > 0
        invariant Running() && old(log) <= log
        invariant forall i :: |old(log)| <= i < |log| ==> !OwnAction(log[i], k)
        invariant KS(s, k).pc == old(KS(s, k).pc)
      {
        var a: Action := *;
        if !a.Restart? && !a.Panic? && !OwnAction(a, k) && Enabled(s, a) {
          OthersKeepPC(s, a, k);
          Act(a);
        }
        n := n - 1;
      }
    }

    /** Everything proved of all runs is known of this state. */
    lemma Known(k: Key)
      requires Valid()
      ensures Inv(SameConnection, s) && KeyInv(k, KS(s, k), s.now)
    {
      Reachable(SameConnection, cluster, log);
      assert WorkInv(s, k);
    }

    lemma EntriesHaveIds()
      requires Valid()
      ensures RemoteInv(s.remote)
    {
      Reachable(SameConnection, cluster, log);
    }

    /** In every state a reconcile passes through, and wherever it is interrupted, no connection on
        the server is without a stored resource that carries the finalizer. */
    lemma Orphanless()
      requires Valid()
      ensures NoOrphans(s)
    {
      NoOrphanConnections(cluster, log);
    }

    // -------- Kubernetes API --------

    /** Read the key from the informer cache. */
    method Get(k: Key) returns (r: GetResult)
      requires Running() && KS(s, k).pc.Dequeued?
      modifies this
      ensures Running() && |log| == |old(log)| + 1 && old(log) <= log
      ensures log[|old(log)|] == Action.Get(k, !r.GetFailed?)
      ensures r.GetFailed? ==> KS(s, k).pc.Idle? && KS(s, k).queued
      ensures r.NotFound? ==> KS(s, k).pc.Idle?
      ensures r.Found? ==> KS(s, k).pc == Branch(Present(r.obj)) && KindOf(r.obj.spec) == k.kind
    {
      Known(k);
      var ok: bool := *;
      var v := Cached(KS(s, k));
      Act(Action.Get(k, ok));
      r := if !ok then GetFailed else if v.Absent? then NotFound else Found(v.obj);
    }

    /** Submit an object; the server decides by its resource version. */
    method Update(k: Key, obj: Object) returns (err: bool)
      requires Running()
      requires
        var pc := KS(s, k).pc;
        || (pc.AtAdd? && obj == pc.snap.(finalizers := pc.snap.finalizers + {Awi}))
        || (pc.AtRemove? && obj == pc.snap.(finalizers := pc.snap.finalizers - {Awi}))
      modifies this
      ensures Running() && |log| == |old(log)| + 1 && old(log) <= log
      ensures err ==> KS(s, k).pc.Idle? && KS(s, k).queued && EndsBadly(log[|old(log)|], k)
      ensures !err && old(KS(s, k).pc).AtAdd? ==>
                KS(s, k).pc.AtConnect? && KS(s, k).pc.snap.(rv := obj.rv) == obj
      ensures !err && old(KS(s, k).pc).AtRemove? ==> KS(s, k).pc.Idle? && log[|old(log)|] == Remove(k, Ok)
      ensures before == old(s)
      ensures !err ==> Current(KS(before, k)) == Present(old(KS(s, k).pc.snap)) && StoredAs(obj, Current(KS(s, k)))
      ensures !err && old(KS(s, k).pc).AtRemove? ==> Released(Current(KS(before, k)), Current(KS(s, k)))
    {
      Known(k);
      var out: Outcome := *;
      if !Matches(KS(s, k), KS(s, k).pc.snap) {
        out := ErrLost;
      } else {
        MatchIsCurrent(KS(s, k), KS(s, k).pc.snap);
      }
      Act(if KS(s, k).pc.AtAdd? then Add(k, out) else Remove(k, out));
      err := !out.Ok?;
    }

    // -------- AWI server --------

    method Connect(k: Key, spec: Spec) returns (err: bool)
      requires Running() && KS(s, k).pc.AtConnect? && KS(s, k).pc.snap.spec == spec && spec.Net?
      modifies this
      ensures Running() && |log| == |old(log)| + 1 && old(log) <= log
      ensures KS(s, k).pc.Idle? && (err ==> KS(s, k).queued)
      ensures if err then EndsBadly(log[|old(log)|], k) else EndsConnected(log[|old(log)|], k)
      ensures !err ==> NetId(spec) in s.remote.nets && s.remote.nets[NetId(spec)].key == k
    {
      Known(k);
      var out: Outcome := *;
      Act(Action.Connect(k, out, ""));
      err := !out.Ok?;
    }

    method Disconnect(k: Key, connectionId: string) returns (err: bool)
      requires Running() && KS(s, k).pc.AtDisconnect? && KS(s, k).pc.snap.spec.Net?
      requires connectionId == NetId(KS(s, k).pc.snap.spec)
      modifies this
      ensures Running() && |log| == |old(log)| + 1 && old(log) <= log
      ensures err ==> KS(s, k).pc.Idle? && KS(s, k).queued && EndsBadly(log[|old(log)|], k)
      ensures !err ==> KS(s, k).pc == AtRemove(old(KS(s, k).pc.snap)) && connectionId !in s.remote.nets
    {
      Known(k);
      var out: Outcome := *;
      Act(Action.Disconnect(k, out));
      err := !out.Ok?;
    }

    /** The server files the request under the key's entry, or under a new identifier. */
    method ConnectApps(k: Key, spec: AppSpec) returns (err: bool)
      requires Running() && KS(s, k).pc.AtConnect?
      requires
        var o := KS(s, k).pc.snap;
        o.spec.App? && !Panics(o.spec.app) && spec == DefaultCluster(o.spec.app, cluster)
      modifies this
      ensures Running() && |log| == |old(log)| + 1 && old(log) <= log
      ensures KS(s, k).pc.Idle? && (err ==> KS(s, k).queued)
      ensures if err then EndsBadly(log[|old(log)|], k) else EndsConnected(log[|old(log)|], k)
      ensures !err ==> Filed(s.remote, spec, k)
    {
      Known(k);
      DefaultClusterKeepsKey(KS(s, k).pc.snap.spec.app, s.cluster);
      var out: Outcome := *;
      var id: string := *;
      if !Assignable(id, KeyOf(KS(s, k).pc.snap.spec.app), s.remote.apps) { out := ErrLost; }
      Act(Action.Connect(k, out, id));
      err := !out.Ok?;
    }

    method ListConnectedApps(k: Key) returns (r: Result<seq<AppInfo>, ()>)
      requires Running() && KS(s, k).pc.AtDisconnect? && KS(s, k).pc.snap.spec.App?
      modifies this
      ensures Running() && |log| == |old(log)| + 1 && old(log) <= log
      ensures r.Failure? ==> KS(s, k).pc.Idle? && KS(s, k).queued && EndsBadly(log[|old(log)|], k)
      ensures r.Success? ==>
                var o := old(KS(s, k).pc.snap);
                var id := FindId(r.value, KeyOf(o.spec.app));
                && IsListing(r.value, s.remote.apps) && log[|old(log)|] == ListApps(k, true, r.value)
                && KS(s, k).pc == if id == "" then AtRemove(o) else AtDisconnectApp(o, id)
    {
      Known(k);
      var listing: seq<AppInfo> := *;
      if IsListing(listing, s.remote.apps) {
        Act(ListApps(k, true, listing));
        r := Success(listing);
      } else {
        Act(ListApps(k, false, []));
        r := Failure(());
      }
    }

    method DisconnectApps(k: Key, connectionId: string) returns (err: bool)
      requires Running() && KS(s, k).pc.AtDisconnectApp? && KS(s, k).pc.id == connectionId
      modifies this
      ensures Running() && |log| == |old(log)| + 1 && old(log) <= log
      ensures err ==> KS(s, k).pc.Idle? && KS(s, k).queued && EndsBadly(log[|old(log)|], k)
      ensures !err ==> KS(s, k).pc == AtRemove(old(KS(s, k).pc.snap)) && NoEntry(s.remote, connectionId)
    {
      Known(k);
      var out: Outcome := *;
      Act(DisconnectApp(k, out));
      err := !out.Ok?;
    }
  }

  /** The server has the request on file, as sent, for this resource. */
  predicate Filed(remote: Remote, spec: AppSpec, k: Key) {
    KeyOf(spec) in remote.apps && remote.apps[KeyOf(spec)].config == spec && remote.apps[KeyOf(spec)].owner.key == k
  }

  /** No entry of the server has the identifier. */
  ghost predicate NoEntry(remote: Remote, id: string) {
    forall p :: p in remote.apps ==> remote.apps[p].id != id
  }

  /** The search loop of `AppDisconnectRequest`. */
  method FindAppConnection(connections: seq<AppInfo>, spec: AppSpec) returns (id: string)
    ensures id == FindId(connections, KeyOf(spec))
    ensures
      (forall j :: 0 <= j < |connections| ==>
         connections[j].config.matchName != spec.matchName || connections[j].config.name != spec.name) ==>
        id == ""
    ensures
      forall i ::
        && 0 <= i < |connections|
        && connections[i].config.matchName == spec.matchName && connections[i].config.name == spec.name
        && (forall j :: 0 <= j < i ==>
              connections[j].config.matchName != spec.matchName || connections[j].config.name != spec.name) ==>
          id == connections[i].id
  {
    id := "";
    var i := 0;
    while i < |connections|
      invariant 0 <= i <= |connections|
      invariant forall j :: 0 <= j < i ==>
        connections[j].config.matchName != spec.matchName || connections[j].config.name != spec.name
      invariant id == ""
    {
      if connections[i].config.matchName == spec.matchName && connections[i].config.name == spec.name {
        FirstMatchAt(connections, KeyOf(spec), i);
        id := connections[i].id;
        return;
      }
      i := i + 1;
    }
  }

  /** The AWI client's requests on behalf of a reconcile. */
  class AwiGrpcClient {
    const world: World

    constructor (world: World)
      ensures this.world == world
    {
      this.world := world;
    }

    method ConnectionRequest(k: Key, spec: Spec) returns (err: bool)
      requires world.Running() && KS(world.s, k).pc.AtConnect? && KS(world.s, k).pc.snap.spec == spec && spec.Net?
      modifies world
      ensures world.Running() && |world.log| > |old(world.log)| && old(world.log) <= world.log
      ensures KS(world.s, k).pc.Idle? && (err ==> KS(world.s, k).queued)
      ensures
        var last := world.log[|world.log| - 1];
        if err then EndsBadly(last, k) else EndsConnected(last, k)
      ensures !err ==> NetId(spec) in world.s.remote.nets && world.s.remote.nets[NetId(spec)].key == k
    {
      err := world.Connect(k, spec);
    }

    method DisconnectRequest(k: Key, spec: Spec) returns (err: bool)
      requires world.Running() && KS(world.s, k).pc.AtDisconnect? && KS(world.s, k).pc.snap.spec == spec && spec.Net?
      modifies world
      ensures world.Running() && |world.log| > |old(world.log)| && old(world.log) <= world.log
      ensures err ==> KS(world.s, k).pc.Idle? && KS(world.s, k).queued && EndsBadly(world.log[|world.log| - 1], k)
      ensures !err ==>
                && KS(world.s, k).pc == AtRemove(old(KS(world.s, k).pc.snap))
                && ConnectionId(spec.source, spec.destination) !in world.s.remote.nets
    {
      var connId := ConnectionId(spec.source, spec.destination);
      err := world.Disconnect(k, connId);
    }

    method AppConnectionRequest(k: Key, spec: AppSpec) returns (err: bool)
      requires world.Running() && KS(world.s, k).pc.AtConnect?
      requires
        var o := KS(world.s, k).pc.snap;
        o.spec.App? && !Panics(o.spec.app) && spec == DefaultCluster(o.spec.app, world.cluster)
      modifies world
      ensures world.Running() && |world.log| > |old(world.log)| && old(world.log) <= world.log
      ensures KS(world.s, k).pc.Idle? && (err ==> KS(world.s, k).queued)
      ensures
        var last := world.log[|world.log| - 1];
        if err then EndsBadly(last, k) else EndsConnected(last, k)
      ensures !err ==> Filed(world.s.remote, spec, k)
    {
      err := world.ConnectApps(k, spec);
    }

    /** Look for the entry of the request and disconnect it; others may act between the two. `id` is
        what the search found in the listing it got: after success no entry has it, and if the search
        found nothing the server has no entry of the request. */
    method AppDisconnectRequest(k: Key, spec: AppSpec) returns (err: bool, ghost id: string)
      requires world.Running() && KS(world.s, k).pc.AtDisconnect? && KS(world.s, k).pc.snap.spec == App(spec)
      modifies world
      ensures world.Running() && |world.log| > |old(world.log)| && old(world.log) <= world.log
      ensures err ==> KS(world.s, k).pc.Idle? && KS(world.s, k).queued && EndsBadly(world.log[|world.log| - 1], k)
      ensures !err ==> KS(world.s, k).pc == AtRemove(old(KS(world.s, k).pc.snap))
      ensures !err ==>
                var sent := world.log[|old(world.log)|];
                sent.ListApps? && sent.key == k && sent.ok && id == FindId(sent.listing, KeyOf(spec))
      ensures !err ==> if id == "" then KeyOf(spec) !in world.s.remote.apps else NoEntry(world.s.remote, id)
    {
      id := "";
      var connections := world.ListConnectedApps(k);
      if connections.Failure? {
        return true, id;
      }
      var found := FindAppConnection(connections.value, spec);
      id := found;
      if found == "" {
        ListingFinds(connections.value, world.s.remote.apps, KeyOf(spec));
        world.EntriesHaveIds();
        return false, id;
      }
      world.Interfere(k);
      err := world.DisconnectApps(k, found);
    }
  }

  /** The reconciler of network domain connections. */
  class ConnectionReconciler {
    const world: World
    const awiClient: AwiGrpcClient

    constructor (world: World, awiClient: AwiGrpcClient)
      requires awiClient.world == world
      ensures this.world == world && this.awiClient == awiClient
    {
      this.world := world;
      this.awiClient := awiClient;
    }

    /** Disconnect and take the finalizer off. */
    method Finalize(k: Key, conn: Object) returns (err: bool)
      requires world.Running() && KS(world.s, k).pc == AtDisconnect(conn) && conn.spec.Net? && awiClient.world == world
      modifies world
      ensures world.Running() && |world.log| > |old(world.log)| && old(world.log) <= world.log
      ensures KS(world.s, k).pc.Idle? && (err ==> KS(world.s, k).queued)
      ensures
        var last := world.log[|world.log| - 1];
        if err then EndsBadly(last, k)
        else last == Remove(k, Ok) && Released(Current(KS(world.before, k)), Current(KS(world.s, k)))
    {
      world.Interfere(k);
      err := awiClient.DisconnectRequest(k, conn.spec);
      if err {
        return true;
      }
      var updated := conn.(finalizers := conn.finalizers - {Awi});
      world.Interfere(k);
      err := world.Update(k, updated);
    }

    /** Handle one key taken from the queue. Every state on the way is a state of the protocol;
        the last request made is a final one, and an error puts the key back in the queue. */
    method Reconcile(k: Key) returns (err: bool)
      requires world.Running() && KS(world.s, k).pc.Dequeued?
      requires awiClient.world == world && k.kind == NetworkDomainConnection
      modifies world
      ensures world.Running() && |world.log| > |old(world.log)| && old(world.log) <= world.log
      ensures KS(world.s, k).pc.Idle? && (err ==> KS(world.s, k).queued)
      ensures
        var last := world.log[|world.log| - 1];
        && (if err then EndsBadly(last, k) else EndsWell(last, k))
        && (last == Remove(k, Ok) ==> Released(Current(KS(world.before, k)), Current(KS(world.s, k))))
    {
      var got := world.Get(k);
      match got
      case GetFailed => return true;
      case NotFound => return false;
      case Found(_) =>
      var conn := got.obj;
      if !conn.deleting {
        if Awi !in conn.finalizers {
          conn := conn.(finalizers := conn.finalizers + {Awi});
          world.Interfere(k);
          err := world.Update(k, conn);
          if err {
            return true;
          }
        }
      } else {
        if Awi in conn.finalizers {
          err := Finalize(k, conn);
          if err {
            return true;
          }
        }
        return false;
      }
      world.Interfere(k);
      err := awiClient.ConnectionRequest(k, conn.spec);
    }
  }

  /** The reconciler of app connections. */
  class AppConnectionReconciler {
    const world: World
    const awiClient: AwiGrpcClient
    const clusterName: string

    constructor (world: World, awiClient: AwiGrpcClient, clusterName: string)
      requires awiClient.world == world
      ensures this.world == world && this.awiClient == awiClient && this.clusterName == clusterName
    {
      this.world := world;
      this.awiClient := awiClient;
      this.clusterName := clusterName;
    }

    /** Add the source cluster if it is not provided; `None` is the nil dereference. */
    method WithClusterName(spec: AppSpec) returns (r: Option<AppSpec>)
      ensures r == if Panics(spec) then None else Some(DefaultCluster(spec, clusterName))
    {
      var request := spec;
      if request.from.Some? && ToLower(request.from.value.kind) == "pod" && ClusterOf(request.from.value) == "" {
        if request.from.value.selector.None? {
          return None;
        }
        var selector := request.from.value.selector.value.(matchCluster := Some(clusterName));
        request := request.(from := Some(request.from.value.(selector := Some(selector))));
      }
      return Some(request);
    }

    /** Disconnect and take the finalizer off. */
    method Finalize(k: Key, conn: Object) returns (err: bool)
      requires world.Running() && KS(world.s, k).pc == AtDisconnect(conn) && conn.spec.App? && awiClient.world == world
      modifies world
      ensures world.Running() && |world.log| > |old(world.log)| && old(world.log) <= world.log
      ensures KS(world.s, k).pc.Idle? && (err ==> KS(world.s, k).queued)
      ensures
        var last := world.log[|world.log| - 1];
        if err then EndsBadly(last, k)
        else last == Remove(k, Ok) && Released(Current(KS(world.before, k)), Current(KS(world.s, k)))
    {
      world.Interfere(k);
      ghost var id;
      err, id := awiClient.AppDisconnectRequest(k, conn.spec.app);
      if err {
        return true;
      }
      var updated := conn.(finalizers := conn.finalizers - {Awi});
      world.Interfere(k);
      err := world.Update(k, updated);
    }

    /** Complete the request and send it. */
    method Send(k: Key, spec: AppSpec) returns (verdict: Verdict)
      requires world.Running() && KS(world.s, k).pc.AtConnect? && KS(world.s, k).pc.snap.spec == App(spec)
      requires awiClient.world == world && clusterName == world.cluster
      modifies world
      ensures world.Valid() && |world.log| > |old(world.log)| && old(world.log) <= world.log
      ensures verdict.Panicked? <==> Panics(spec)
      ensures verdict.Panicked? ==>
                && !world.s.up && world.log[|world.log| - 1] == Panic(k)
                && KS(world.s, k).pc.AtConnect? && !Sendable(KS(world.s, k).pc.snap.spec)
      ensures verdict.Returned? ==> world.Running() && KS(world.s, k).pc.Idle?
      ensures verdict.Returned? && verdict.err ==> KS(world.s, k).queued
      ensures verdict.Returned? ==>
                var last := world.log[|world.log| - 1];
                if verdict.err then EndsBadly(last, k) else EndsConnected(last, k)
      ensures verdict == Returned(false) ==> Filed(world.s.remote, DefaultCluster(spec, clusterName), k)
    {
      var request := WithClusterName(spec);
      if request.None? {
        world.Die(k);
        return Panicked;
      }
      world.Interfere(k);
      var err := awiClient.AppConnectionRequest(k, request.value);
      return Returned(err);
    }

    /** As for network domain connections, except that the request is completed with the name of
        the cluster, and that a pod endpoint without a selector kills the process. */
    method Reconcile(k: Key) returns (verdict: Verdict)
      requires world.Running() && KS(world.s, k).pc.Dequeued?
      requires awiClient.world == world && clusterName == world.cluster && k.kind == AppConnection
      modifies world
      ensures world.Valid() && |world.log| > |old(world.log)| && old(world.log) <= world.log
      ensures verdict.Panicked? ==>
                && !world.s.up && world.log[|world.log| - 1] == Panic(k)
                && KS(world.s, k).pc.AtConnect? && !Sendable(KS(world.s, k).pc.snap.spec)
      ensures verdict.Returned? ==> world.Running() && KS(world.s, k).pc.Idle?
      ensures verdict.Returned? && verdict.err ==> KS(world.s, k).queued
      ensures verdict.Returned? ==>
                var last := world.log[|world.log| - 1];
                && (if verdict.err then EndsBadly(last, k) else EndsWell(last, k))
                && (last == Remove(k, Ok) ==> Released(Current(KS(world.before, k)), Current(KS(world.s, k))))
    {
      var err: bool;
      var got := world.Get(k);
      match got
      case GetFailed => return Returned(true);
      case NotFound => return Returned(false);
      case Found(_) =>
      var conn := got.obj;
      if !conn.deleting {
        if Awi !in conn.finalizers {
          conn := conn.(finalizers := conn.finalizers + {Awi});
          world.Interfere(k);
          err := world.Update(k, conn);
          if err {
            return Returned(true);
          }
        }
      } else {
        if Awi in conn.finalizers {
          err := Finalize(k, conn);
          if err {
            return Returned(true);
          }
        }
        return Returned(false);
      }
      verdict := Send(k, conn.spec.app);
    }
  }
}
