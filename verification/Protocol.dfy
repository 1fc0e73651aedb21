/** The finalizer protocol as a state machine: users, the Kubernetes API server, the informer
    cache and work queue, the two connection reconcilers and the AWI server.

    One `Action` is one atomic step of one of these parties. Every failure the code can meet is a
    parameter of the action: an API or RPC call may fail having taken effect, or fail without
    effect, and the operator process may die between any two steps (`Restart`). */
module Protocol {
  import opened AppConnections
  import opened Names
  import opened Wrappers

  // -------- custom resources --------

  datatype Kind = NetworkDomainConnection | AppConnection

  datatype Key = Key(kind: Kind, namespace: string, name: string)

  /** `Awi` stands for the operator's own finalizer of the resource's kind. */
  datatype Finalizer = Awi | Foreign(name: string)

  datatype Spec = Net(source: string, destination: string) | App(app: AppSpec)

  datatype Object = Object(uid: nat, rv: nat, spec: Spec, finalizers: set<Finalizer>, deleting: bool, status: string)

  datatype Version = Absent | Present(obj: Object)

  function KindOf(spec: Spec): Kind {
    if spec.Net? then NetworkDomainConnection else AppConnection
  }

  predicate Alive(v: Version) {
    v.Present? && !v.obj.deleting
  }

  predicate Terminating(v: Version) {
    v.Present? && v.obj.deleting && Awi in v.obj.finalizers
  }

  // -------- one key --------

  /** Where the reconcile of a key stands. `snap` is the object the code holds in `conn`. */
  datatype PC =
    | Idle
    | Dequeued
    | AtAdd(snap: Object)
    | AtConnect(snap: Object)
    | AtDisconnect(snap: Object)
    | AtDisconnectApp(snap: Object, id: string)
    | AtRemove(snap: Object)

  /** `versions` is the window from what the informer cache holds for the key (first) to what the
      API server holds (last); the transitions in between are watch events not yet delivered. */
  datatype KeyState = KeyState(versions: seq<Version>, queued: bool, pc: PC)

  const FRESH_KEY := KeyState([Absent], false, Idle)

  function Cached(ks: KeyState): Version {
    if |ks.versions| == 0 then Absent else ks.versions[0]
  }

  function Current(ks: KeyState): Version {
    if |ks.versions| == 0 then Absent else ks.versions[|ks.versions| - 1]
  }

  predicate InFlight(pc: PC) { !pc.Idle? }

  predicate Removing(pc: PC) { pc.AtDisconnect? || pc.AtDisconnectApp? || pc.AtRemove? }

  /** `Reconcile` holds an object it has read. */
  predicate HasSnap(pc: PC) { pc.AtAdd? || pc.AtConnect? || Removing(pc) }

  /** The event filters of both controllers: a create event passes, an update event passes only
      when the new object is being deleted, a delete event never passes. */
  predicate Passes(old_: Version, new_: Version) {
    match (old_, new_)
    case (Absent, Present(_)) => true
    case (Present(_), Present(n)) => n.deleting
    case (_, Absent) => false
  }

  // -------- the AWI server --------

  /** Auxiliary: the resource incarnation that last asked for a connection. */
  datatype Owner = Owner(key: Key, uid: nat)

  datatype AppEntry = AppEntry(id: string, config: AppSpec, owner: Owner)

  /** Network domain connections by identifier; app connections by key, since `ConnectApps` keeps
      at most one entry for a key. */
  datatype Remote = Remote(nets: map<string, Owner>, apps: map<AppKey, AppEntry>)

  function NetId(spec: Spec): string
    requires spec.Net?
  {
    ConnectionId(spec.source, spec.destination)
  }

  /** What identifies a connection of either kind on the server. */
  datatype RemoteId = NetConn(id: string) | AppConn(key: AppKey)

  function RemoteIdOf(spec: Spec): RemoteId {
    match spec
    case Net(_, _) => NetConn(NetId(spec))
    case App(app) => AppConn(KeyOf(app))
  }

  predicate Up(remote: Remote, r: RemoteId) {
    match r
    case NetConn(id) => id in remote.nets
    case AppConn(p) => p in remote.apps
  }

  /** Who last asked for a connection that is there. */
  function OwnerOf(remote: Remote, r: RemoteId): Owner
    requires Up(remote, r)
  {
    match r
    case NetConn(id) => remote.nets[id]
    case AppConn(p) => remote.apps[p].owner
  }

  /** Completing the request does not run into the missing selector. */
  predicate Sendable(spec: Spec) {
    spec.App? ==> !Panics(spec.app)
  }

  /** Any listing the server may answer with: its entries in any order. */
  predicate IsListing(listing: seq<AppInfo>, apps: map<AppKey, AppEntry>) {
    && (forall e | e in listing :: KeyOf(e.config) in apps && apps[KeyOf(e.config)].id == e.id)
    && (forall p | p in apps :: Listed(listing, p))
  }

  /** The identifier `ConnectApps` gives an entry is non-empty and names no entry of another key. */
  predicate Assignable(id: string, key: AppKey, apps: map<AppKey, AppEntry>) {
    id != "" && forall p | p in apps :: apps[p].id == id ==> p == key
  }

  // -------- the whole system --------

  /** What an observer of the operator records. `Sent` is a connection request, with whether the
      operator saw it succeed; `Cleared` is a disconnect the operator saw succeed; `Dropped` is
      the operator's finalizer leaving the stored object. */
  datatype Event = Sent(owner: Owner, ok: bool) | Cleared(owner: Owner) | Dropped(owner: Owner)

  /** `past` keeps, for every key, the versions the cache has shown before its present one, and `up`
      says whether the operator process runs. */
  datatype State = State(keys: map<Key, KeyState>, past: map<Key, seq<Version>>, remote: Remote, trace: seq<Event>,
                         now: nat, cluster: string, up: bool)

  function KS(s: State, k: Key): KeyState {
    if k in s.keys then s.keys[k] else FRESH_KEY
  }

  function Past(s: State, k: Key): seq<Version> {
    if k in s.past then s.past[k] else []
  }

  /** All versions of a key up to the one the API server holds. */
  function History(s: State, k: Key): seq<Version> {
    Past(s, k) + KS(s, k).versions
  }

  function Init(cluster: string): State {
    State(map[], map[], Remote(map[], map[]), [], 0, cluster, true)
  }

  // -------- actions --------

  /** The result of an API write or an RPC as the caller sees it: success, an error although it
      took effect, or an error without effect. */
  datatype Outcome = Ok | ErrDone | ErrLost

  datatype Action =
    // users and the status watcher
    | Create(key: Key, spec: Spec, finalizers: set<Finalizer>)
    | UserDelete(key: Key)
    | UserEdit(key: Key, finalizers: set<Finalizer>)
    | StatusWrite(key: Key, status: string)
    // informer and work queue
    | Deliver(key: Key)
    | Dequeue(key: Key)
    // Reconcile
    | Get(key: Key, ok: bool)
    | Add(key: Key, out: Outcome)
    | Connect(key: Key, out: Outcome, id: string)
    | Disconnect(key: Key, out: Outcome)
    | ListApps(key: Key, ok: bool, listing: seq<AppInfo>)
    | DisconnectApp(key: Key, out: Outcome)
    | Remove(key: Key, out: Outcome)
    // the nil dereference of the app reconciler, which ends the process
    | Panic(key: Key)
    // the process dies, if it has not already, and comes back; for every key its cache starts at
    // some version of the key's history, which may be older than what it showed before
    | Restart(at: map<Key, nat>)

  predicate ByProcess(a: Action) {
    !a.Create? && !a.UserDelete? && !a.UserEdit? && !a.StatusWrite? && !a.Restart?
  }

  /** Optimistic concurrency: an update is accepted only for the current resource version. */
  predicate Matches(ks: KeyState, o: Object) {
    Current(ks).Present? && Current(ks).obj.rv == o.rv
  }

  /** What the key's own state asks of an action. */
  predicate KeyEnabled(ks: KeyState, a: Action)
    requires !a.Restart?
  {
    && |ks.versions| > 0
    && match a
       case Create(k, spec, _) => Current(ks).Absent? && KindOf(spec) == k.kind
       case UserDelete(_) => Current(ks).Present? && !Current(ks).obj.deleting
       case UserEdit(_, fins) =>
         && Current(ks).Present?
         && (Awi in Current(ks).obj.finalizers ==> Awi in fins)
         && (Current(ks).obj.deleting ==> fins <= Current(ks).obj.finalizers)
       case StatusWrite(_, _) => Current(ks).Present?
       case Deliver(_) => |ks.versions| > 1
       case Dequeue(_) => ks.queued && ks.pc.Idle?
       case Get(_, _) => ks.pc.Dequeued?
       case Add(_, out) => ks.pc.AtAdd? && (out.ErrLost? || Matches(ks, ks.pc.snap))
       case Connect(_, _, _) => ks.pc.AtConnect? && Sendable(ks.pc.snap.spec)
       case Disconnect(_, _) => ks.pc.AtDisconnect? && ks.pc.snap.spec.Net?
       case ListApps(_, _, _) => ks.pc.AtDisconnect? && ks.pc.snap.spec.App?
       case DisconnectApp(_, _) => ks.pc.AtDisconnectApp?
       case Remove(_, out) => ks.pc.AtRemove? && (out.ErrLost? || Matches(ks, ks.pc.snap))
       case Panic(_) => ks.pc.AtConnect? && !Sendable(ks.pc.snap.spec)
  }

  /** What the AWI server's state asks of an action. */
  predicate RemoteEnabled(remote: Remote, ks: KeyState, a: Action) {
    match a
    case Connect(_, out, id) =>
      ks.pc.AtConnect? && ks.pc.snap.spec.App? && !out.ErrLost? ==>
        Assignable(id, KeyOf(ks.pc.snap.spec.app), remote.apps)
    case ListApps(_, ok, listing) => ok ==> IsListing(listing, remote.apps)
    case _ => true
  }

  predicate Enabled(s: State, a: Action) {
    if a.Restart? then
      forall k | k in s.keys :: k in a.at && a.at[k] < |History(s, k)|
    else
      (ByProcess(a) ==> s.up) && KeyEnabled(KS(s, a.key), a) && RemoteEnabled(s.remote, KS(s, a.key), a)
  }

  // -------- steps of one key --------

  function Push(ks: KeyState, v: Version): KeyState {
    ks.(versions := ks.versions + [v])
  }

  /** A deleted object without finalizers disappears. */
  function Settle(o: Object): Version {
    if o.deleting && o.finalizers == {} then Absent else Present(o)
  }

  /** `Reconcile` returned an error: the key goes back to the queue. */
  function Requeue(ks: KeyState): KeyState {
    ks.(queued := true, pc := Idle)
  }

  /** `Reconcile` returned nil. */
  function Return(ks: KeyState): KeyState {
    ks.(pc := Idle)
  }

  /** The branch `Reconcile` takes on the object it read from the cache. */
  function Branch(v: Version): PC {
    match v
    case Absent => Idle
    case Present(o) =>
      if !o.deleting then
        if Awi !in o.finalizers then AtAdd(o) else AtConnect(o)
      else
        if Awi in o.finalizers then AtDisconnect(o) else Idle
  }

  function WithAwi(o: Object, now: nat): Object {
    o.(finalizers := o.finalizers + {Awi}, rv := now)
  }

  function WithoutAwi(o: Object, now: nat): Object {
    o.(finalizers := o.finalizers - {Awi}, rv := now)
  }

  function KeyStep(ks: KeyState, a: Action, now: nat): KeyState
    requires !a.Restart? && KeyEnabled(ks, a)
  {
    match a
    case Create(_, spec, fins) => Push(ks, Present(Object(now, now, spec, fins, false, "")))
    case UserDelete(_) => Push(ks, Settle(Current(ks).obj.(deleting := true, rv := now)))
    case UserEdit(_, fins) => Push(ks, Settle(Current(ks).obj.(finalizers := fins, rv := now)))
    case StatusWrite(_, status) => Push(ks, Present(Current(ks).obj.(status := status, rv := now)))
    case Deliver(_) => KeyState(ks.versions[1..], ks.queued || Passes(ks.versions[0], ks.versions[1]), ks.pc)
    case Dequeue(_) => ks.(queued := false, pc := Dequeued)
    case Get(_, ok) => if ok then ks.(pc := Branch(Cached(ks))) else Requeue(ks)
    case Add(_, out) =>
      var o := WithAwi(ks.pc.snap, now);
      (match out
       case Ok => Push(ks, Present(o)).(pc := AtConnect(o))
       case ErrDone => Requeue(Push(ks, Present(o)))
       case ErrLost => Requeue(ks))
    case Connect(_, out, _) => if out.Ok? then Return(ks) else Requeue(ks)
    case Disconnect(_, out) => if out.Ok? then ks.(pc := AtRemove(ks.pc.snap)) else Requeue(ks)
    case ListApps(_, ok, listing) =>
      if !ok then Requeue(ks)
      else
        var id := FindId(listing, KeyOf(ks.pc.snap.spec.app));
        ks.(pc := if id == "" then AtRemove(ks.pc.snap) else AtDisconnectApp(ks.pc.snap, id))
    case DisconnectApp(_, out) => if out.Ok? then ks.(pc := AtRemove(ks.pc.snap)) else Requeue(ks)
    case Remove(_, out) =>
      var v := Settle(WithoutAwi(ks.pc.snap, now));
      (match out
       case Ok => Return(Push(ks, v))
       case ErrDone => Requeue(Push(ks, v))
       case ErrLost => Requeue(ks))
    case Panic(_) => ks
  }

  /** A new process lists its resources and queues every one it finds. */
  function Restarted(history: seq<Version>, at: nat): KeyState
    requires at < |history|
  {
    KeyState(history[at..], history[at].Present?, Idle)
  }

  // -------- steps of the AWI server and of the record --------

  function RemoteStep(remote: Remote, ks: KeyState, a: Action, cluster: string): Remote
    requires !a.Restart? && KeyEnabled(ks, a)
  {
    match a
    case Connect(k, out, id) =>
      if out.ErrLost? then remote
      else
        var o := ks.pc.snap;
        (match o.spec
         case Net(_, _) => remote.(nets := remote.nets[NetId(o.spec) := Owner(k, o.uid)])
         case App(app) =>
           remote.(apps := remote.apps[KeyOf(app) := AppEntry(id, DefaultCluster(app, cluster), Owner(k, o.uid))]))
    case Disconnect(_, out) =>
      if out.ErrLost? then remote else remote.(nets := remote.nets - {NetId(ks.pc.snap.spec)})
    case DisconnectApp(_, out) =>
      if out.ErrLost? then remote
      else remote.(apps := map p | p in remote.apps && remote.apps[p].id != ks.pc.id :: remote.apps[p])
    case _ => remote
  }

  function Emits(ks: KeyState, a: Action): seq<Event>
    requires !a.Restart? && KeyEnabled(ks, a)
  {
    match a
    case Connect(k, out, _) => [Sent(Owner(k, ks.pc.snap.uid), out.Ok?)]
    case Disconnect(k, Ok) => [Cleared(Owner(k, ks.pc.snap.uid))]
    case ListApps(k, true, listing) =>
      if FindId(listing, KeyOf(ks.pc.snap.spec.app)) == "" then [Cleared(Owner(k, ks.pc.snap.uid))] else []
    case DisconnectApp(k, Ok) => [Cleared(Owner(k, ks.pc.snap.uid))]
    case Remove(k, out) => if out.ErrLost? then [] else [Dropped(Owner(k, ks.pc.snap.uid))]
    case _ => []
  }

  // -------- runs --------

  function Next(s: State, a: Action): State
    requires Enabled(s, a)
  {
    if a.Restart? then
      s.(keys := map k | k in s.keys :: Restarted(History(s, k), a.at[k]),
         past := map k | k in s.keys :: History(s, k)[..a.at[k]],
         up := true, now := s.now + 1)
    else
      var ks := KS(s, a.key);
      State(s.keys[a.key := KeyStep(ks, a, s.now)],
            if a.Deliver? then s.past[a.key := Past(s, a.key) + [ks.versions[0]]] else s.past,
            RemoteStep(s.remote, ks, a, s.cluster), s.trace + Emits(ks, a), s.now + 1, s.cluster,
            s.up && !a.Panic?)
  }

  /** A run: every action is enabled in the state its predecessors lead to. */
  predicate Legal(s: State, run: seq<Action>)
    decreases |run|, 1
  {
    run == [] || LegalFrom(s, run)
  }

  predicate LegalFrom(s: State, run: seq<Action>)
    requires run != []
    decreases |run|, 0
  {
    Enabled(s, run[0]) && Legal(Next(s, run[0]), run[1..])
  }

  function Exec(s: State, run: seq<Action>): State
    requires Legal(s, run)
    decreases |run|, 1
  {
    if run == [] then s else ExecFrom(s, run)
  }

  function ExecFrom(s: State, run: seq<Action>): State
    requires run != [] && LegalFrom(s, run)
    decreases |run|, 0
  {
    Exec(Next(s, run[0]), run[1..])
  }

  /** Runs compose. */
  lemma {:induction false} ExecAppend(s: State, r1: seq<Action>, r2: seq<Action>)
    requires Legal(s, r1)
    requires Legal(Exec(s, r1), r2)
    ensures Legal(s, r1 + r2)
    ensures Exec(s, r1 + r2) == Exec(Exec(s, r1), r2)
    decreases |r1|
  {
    if r1 == [] {
      assert r1 + r2 == r2;
    } else {
      assert LegalFrom(s, r1) && Exec(s, r1) == ExecFrom(s, r1);
      assert (r1 + r2)[1..] == r1[1..] + r2;
      ExecAppend(Next(s, r1[0]), r1[1..], r2);
      assert LegalFrom(s, r1 + r2) && Exec(s, r1 + r2) == ExecFrom(s, r1 + r2);
    }
  }

  /** A run extended by one action. */
  lemma ExecSnoc(s: State, run: seq<Action>, a: Action)
    requires Legal(s, run) && Enabled(Exec(s, run), a)
    ensures Legal(s, run + [a])
    ensures Exec(s, run + [a]) == Next(Exec(s, run), a)
  {
    var t := Exec(s, run);
    var one := [a];
    assert one[0] == a && one[1..] == [];
    assert Legal(Next(t, a), []) && Exec(Next(t, a), []) == Next(t, a);
    assert LegalFrom(t, one);
    assert Exec(t, one) == ExecFrom(t, one);
    ExecAppend(s, run, one);
  }

  /** The state and history of other resources are untouched by a step of one resource. */
  lemma StepFrame(s: State, a: Action, k: Key)
    requires Enabled(s, a) && !a.Restart?
    ensures KS(Next(s, a), k) == if k == a.key then KeyStep(KS(s, k), a, s.now) else KS(s, k)
    ensures k != a.key || !a.Deliver? ==> Past(Next(s, a), k) == Past(s, k)
    ensures k == a.key && a.Deliver? ==> Past(Next(s, a), k) == Past(s, k) + [KS(s, k).versions[0]]
  {
  }

  lemma RestartFrame(s: State, a: Action, k: Key)
    requires Enabled(s, a) && a.Restart?
    ensures
      k in s.keys ==>
        && k in a.at && a.at[k] < |History(s, k)|
        && KS(Next(s, a), k) == Restarted(History(s, k), a.at[k])
        && History(Next(s, a), k) == History(s, k)
    ensures |KS(s, k).versions| > 0 ==> Current(KS(Next(s, a), k)) == Current(KS(s, k))
    ensures k !in s.keys ==> KS(s, k) == KS(Next(s, a), k) == FRESH_KEY && Past(Next(s, a), k) == []
  {
    if k in s.keys {
      var h := History(s, k);
      RestartedHistory(h, a.at[k]);
      assert |KS(s, k).versions| > 0 ==> h[|h| - 1] == Current(KS(s, k));
    }
  }

  lemma RestartedHistory(h: seq<Version>, at: nat)
    requires at < |h|
    ensures h[..at] + Restarted(h, at).versions == h && Current(Restarted(h, at)) == h[|h| - 1]
  {
  }

  /** A step of a key appends a version at the server's end, or delivers one at the cache's end, or
      does neither. */
  lemma VersionsStep(ks: KeyState, a: Action, now: nat)
    requires !a.Restart? && KeyEnabled(ks, a)
    ensures
      var v, v' := ks.versions, KeyStep(ks, a, now).versions;
      if a.Deliver? then v' == v[1..] && v == [v[0]] + v'
      else v' == v || v' == v + [Current(KeyStep(ks, a, now))]
  {
  }

  lemma HistoryStep(s: State, a: Action, k: Key)
    requires Enabled(s, a) && !a.Restart?
    ensures
      var s' := Next(s, a);
      if k == a.key && KS(s', k).versions == KS(s, k).versions + [Current(KS(s', k))]
      then History(s', k) == History(s, k) + [Current(KS(s', k))]
      else History(s', k) == History(s, k)
  {
    StepFrame(s, a, k);
    if k == a.key { VersionsStep(KS(s, k), a, s.now); }
  }

  // -------- how far back a restart may list --------

  /** A reconcile that reads this version sends a connect on its word. */
  predicate Connects(v: Version) {
    Alive(v) && Awi in v.obj.finalizers && Sendable(v.obj.spec)
  }

  /** What restarts have in common over a run: every version in a new cache's window that connects
      is backed by the stored version, which carries the finalizer and asks for the same connection,
      or even is of the same incarnation; or no cache goes backwards. */
  datatype Recency = SameConnection | SameIncarnation | Forward

  predicate Backed(how: Recency, cur: Version, o: Object) {
    && cur.Present? && Awi in cur.obj.finalizers
    && (if how.SameConnection? then RemoteIdOf(cur.obj.spec) == RemoteIdOf(o.spec)
        else cur.obj.uid == o.uid && cur.obj.spec == o.spec)
  }

  ghost predicate Sound(how: Recency, v: seq<Version>) {
    forall i :: 0 <= i < |v| && Connects(v[i]) ==> Backed(how, v[|v| - 1], v[i].obj)
  }

  ghost predicate FreshStep(how: Recency, s: State, a: Action)
    requires Enabled(s, a)
  {
    a.Restart? ==>
      forall k :: k in s.keys ==>
        if how.Forward? then |Past(s, k)| <= a.at[k] else Sound(how, History(s, k)[a.at[k]..])
  }

  /** Every restart of the run is of that kind. */
  ghost predicate Fresh(how: Recency, s: State, run: seq<Action>)
    requires Legal(s, run)
    decreases |run|, 1
  {
    run == [] || FreshFrom(how, s, run)
  }

  ghost predicate FreshFrom(how: Recency, s: State, run: seq<Action>)
    requires run != [] && LegalFrom(s, run)
    decreases |run|, 0
  {
    FreshStep(how, s, run[0]) && Fresh(how, Next(s, run[0]), run[1..])
  }

  predicate NoRestart(run: seq<Action>) {
    forall i :: 0 <= i < |run| ==> !run[i].Restart?
  }

  lemma {:induction false} NoRestartIsFresh(how: Recency, s: State, run: seq<Action>)
    requires Legal(s, run) && NoRestart(run)
    ensures Fresh(how, s, run)
    decreases |run|
  {
    if run != [] {
      assert LegalFrom(s, run) && !run[0].Restart?;
      assert forall i :: 0 <= i < |run[1..]| ==> run[1..][i] == run[i + 1];
      NoRestartIsFresh(how, Next(s, run[0]), run[1..]);
      assert FreshFrom(how, s, run);
    }
  }

  lemma {:induction false} FreshAppend(how: Recency, s: State, r1: seq<Action>, r2: seq<Action>)
    requires Legal(s, r1) && Fresh(how, s, r1)
    requires Legal(Exec(s, r1), r2) && Fresh(how, Exec(s, r1), r2)
    ensures Legal(s, r1 + r2) && Fresh(how, s, r1 + r2)
    decreases |r1|
  {
    if r1 == [] {
      assert r1 + r2 == r2;
    } else {
      var s', rest := Next(s, r1[0]), r1[1..];
      assert LegalFrom(s, r1) && Exec(s, r1) == ExecFrom(s, r1) && FreshFrom(how, s, r1);
      FreshAppend(how, s', rest, r2);
      assert (r1 + r2)[0] == r1[0] && (r1 + r2)[1..] == rest + r2;
      assert LegalFrom(s, r1 + r2);
      assert FreshFrom(how, s, r1 + r2);
    }
  }

  lemma FreshSnoc(how: Recency, s: State, run: seq<Action>, a: Action)
    requires Legal(s, run) && Fresh(how, s, run) && Enabled(Exec(s, run), a) && FreshStep(how, Exec(s, run), a)
    ensures Legal(s, run + [a]) && Fresh(how, s, run + [a])
  {
    var t, one := Exec(s, run), [a];
    assert one[0] == a && one[1..] == [];
    assert Legal(Next(t, a), []) && Fresh(how, Next(t, a), []);
    assert LegalFrom(t, one);
    assert FreshFrom(how, t, one);
    FreshAppend(how, s, run, one);
  }
}
