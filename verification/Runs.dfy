/** Runs built step by step, and the pieces of which the others are made: let the cache catch up,
    send a connect, disconnect, finish a deletion. */
module Runs {
  import opened AppConnections
  import opened KeyInvariants
  import opened Protocol
  import opened WorkInvariants

  // -------- composing runs --------

  /** Who acts in a run without restarts: the operator's process alone, or also users, who create
      nothing but the given resources. */
  datatype Scope = Process | Users(made: iset<(Key, Spec)>)

  predicate Within(scope: Scope, a: Action) {
    match scope
    case Process => ByProcess(a)
    case Users(made) => !a.Restart? && (a.Create? ==> (a.key, a.spec) in made)
  }

  predicate AllWithin(scope: Scope, run: seq<Action>) {
    forall i :: 0 <= i < |run| ==> Within(scope, run[i])
  }

  /** The run leads from one state to another. */
  ghost predicate Leads(scope: Scope, s: State, run: seq<Action>, st: State) {
    Legal(s, run) && Exec(s, run) == st && AllWithin(scope, run)
  }

  /** Extend a run by an action of one key. */
  lemma Then(scope: Scope, s: State, run: seq<Action>, st: State, a: Action) returns (run': seq<Action>, st': State)
    requires Leads(scope, s, run, st) && Within(scope, a) && Enabled(st, a)
    ensures Leads(scope, s, run', st') && run' == run + [a] && st' == Next(st, a) && a.key in st'.keys
    ensures KS(st', a.key) == KeyStep(KS(st, a.key), a, st.now)
    ensures forall k :: k != a.key ==> KS(st', k) == KS(st, k)
  {
    ExecSnoc(s, run, a);
    run', st' := run + [a], Next(st, a);
  }

  lemma Append(scope: Scope, s: State, r1: seq<Action>, m: State, r2: seq<Action>, st: State)
    requires Leads(scope, s, r1, m) && Leads(scope, m, r2, st)
    ensures Leads(scope, s, r1 + r2, st)
  {
    ExecAppend(s, r1, r2);
  }

  lemma Widen(scope: Scope, s: State, run: seq<Action>, st: State)
    requires Leads(Process, s, run, st)
    ensures Leads(scope, s, run, st)
  {
  }

  /** Nothing but what is said of a key, the server and the record changes. */
  ghost predicate OnlyKey(s: State, st: State, k: Key) {
    && (forall k' :: k' != k ==> KS(st, k') == KS(s, k'))
    && st.cluster == s.cluster && st.up == s.up
  }

  /** Histories only grow. */
  lemma {:induction false} HistoryGrows(s: State, run: seq<Action>, k: Key)
    requires Legal(s, run) && NoRestart(run)
    ensures History(s, k) <= History(Exec(s, run), k)
    decreases |run|
  {
    if run != [] {
      assert LegalFrom(s, run) && Exec(s, run) == ExecFrom(s, run) && !run[0].Restart?;
      HistoryStep(s, run[0], k);
      assert forall i :: 0 <= i < |run[1..]| ==> run[1..][i] == run[i + 1];
      HistoryGrows(Next(s, run[0]), run[1..], k);
    }
  }

  lemma {:induction false} RunKeepsRemote(s: State, run: seq<Action>)
    requires RemoteInv(s.remote) && Legal(s, run)
    ensures RemoteInv(Exec(s, run).remote)
    decreases |run|
  {
    if run != [] {
      assert LegalFrom(s, run) && Exec(s, run) == ExecFrom(s, run);
      if !run[0].Restart? { RemoteKeeps(s.remote, KS(s, run[0].key), run[0], s.cluster); }
      RunKeepsRemote(Next(s, run[0]), run[1..]);
    }
  }

  // -------- what the server can answer --------

  /** The server can always answer a list request. */
  lemma {:induction false} SomeListing(apps: map<AppKey, AppEntry>)
    requires forall p :: p in apps ==> KeyOf(apps[p].config) == p
    ensures exists listing :: IsListing(listing, apps)
    decreases |apps|
  {
    if apps == map[] {
      assert IsListing([], apps);
    } else {
      var p :| p in apps;
      var rest := apps - {p};
      assert apps.Keys == rest.Keys + {p};
      SomeListing(rest);
      var listing :| IsListing(listing, rest);
      var more := [AppInfo(apps[p].id, apps[p].config, 0)] + listing;
      forall q | q in apps
        ensures Listed(more, q)
      {
        if q == p {
          assert more[0] in more && KeyOf(more[0].config) == p;
        } else {
          assert Listed(listing, q);
          var e :| e in listing && KeyOf(e.config) == q;
          assert e in more;
        }
      }
      assert IsListing(more, apps);
    }
  }

  /** The server can always find an identifier for a new entry. */
  lemma {:induction false} SomeLongId(apps: map<AppKey, AppEntry>) returns (n: nat)
    ensures forall p :: p in apps ==> |apps[p].id| < n
    ensures n > 0
    decreases |apps|
  {
    if apps == map[] {
      n := 1;
    } else {
      var p :| p in apps;
      var rest := apps - {p};
      assert apps.Keys == rest.Keys + {p};
      var m := SomeLongId(rest);
      n := if |apps[p].id| < m then m else |apps[p].id| + 1;
    }
  }

  lemma SomeAssignable(apps: map<AppKey, AppEntry>, p: AppKey) returns (id: string)
    ensures Assignable(id, p, apps)
  {
    var n := SomeLongId(apps);
    id := seq(n, i => 'x');
  }

  // -------- the cache --------

  ghost predicate WakesBy(v: seq<Version>, i: nat) {
    exists j :: 0 < j <= i && j < |v| && Passes(v[j - 1], v[j])
  }

  /** Deliver events until the cache shows version `i` of the window. */
  lemma {:induction false} DeliverTo(s: State, k: Key, i: nat) returns (run: seq<Action>, st: State)
    requires s.up && i < |KS(s, k).versions|
    ensures Leads(Process, s, run, st) && OnlyKey(s, st, k)
    ensures st.remote == s.remote && st.trace == s.trace
    ensures
      var ks := KS(s, k);
      KS(st, k) == KeyState(ks.versions[i..], ks.queued || WakesBy(ks.versions, i), ks.pc)
    ensures st.now == s.now + i
  {
    var ks := KS(s, k);
    if i == 0 {
      run, st := [], s;
      assert ks.versions[0..] == ks.versions;
    } else {
      var before, mid := DeliverTo(s, k, i - 1);
      var v := ks.versions[i - 1..];
      assert v[0] == ks.versions[i - 1] && v[1] == ks.versions[i] && v[1..] == ks.versions[i..];
      assert WakesBy(ks.versions, i) <==> WakesBy(ks.versions, i - 1) || Passes(v[0], v[1]);
      run, st := Then(Process, s, before, mid, Deliver(k));
    }
  }

  /** Let the cache of one key catch up. */
  lemma CatchUp(s: State, k: Key) returns (run: seq<Action>, st: State)
    requires s.up && |KS(s, k).versions| > 0
    ensures Leads(Process, s, run, st) && OnlyKey(s, st, k)
    ensures st.remote == s.remote && st.trace == s.trace
    ensures
      var ks := KS(s, k);
      KS(st, k) == KeyState([Current(ks)], ks.queued || WakePending(ks.versions), ks.pc)
  {
    var v := KS(s, k).versions;
    run, st := DeliverTo(s, k, |v| - 1);
    assert v[|v| - 1..] == [v[|v| - 1]];
    assert WakesBy(v, |v| - 1) <==> WakePending(v);
  }

  // -------- requests --------

  /** The server after a successful connect. */
  function Joined(remote: Remote, spec: Spec, ow: Owner, id: string, cluster: string): Remote
    requires Sendable(spec)
  {
    match spec
    case Net(_, _) => remote.(nets := remote.nets[NetId(spec) := ow])
    case App(app) => remote.(apps := remote.apps[KeyOf(app) := AppEntry(id, DefaultCluster(app, cluster), ow)])
  }

  function Without(remote: Remote, r: RemoteId): Remote {
    match r
    case NetConn(id) => remote.(nets := remote.nets - {id})
    case AppConn(p) => remote.(apps := remote.apps - {p})
  }

  /** Take a key from the queue whose cached version connects, and connect it. */
  lemma SendConnect(s: State, k: Key) returns (run: seq<Action>, st: State, id: string)
    requires s.up && |KS(s, k).versions| > 0 && KS(s, k).queued && KS(s, k).pc.Idle? && Connects(Cached(KS(s, k)))
    ensures Leads(Process, s, run, st) && OnlyKey(s, st, k) && |run| > 0 && run[|run| - 1] == Connect(k, Ok, id)
    ensures KS(st, k) == KS(s, k).(queued := false)
    ensures
      var o := Cached(KS(s, k)).obj;
      && st.remote == Joined(s.remote, o.spec, Owner(k, o.uid), id, s.cluster)
      && st.trace == s.trace + [Sent(Owner(k, o.uid), true)]
  {
    var o := Cached(KS(s, k)).obj;
    run, st := Then(Process, s, [], s, Dequeue(k));
    run, st := Then(Process, s, run, st, Get(k, true));
    assert KS(st, k).pc == AtConnect(o);
    id := "";
    if o.spec.App? { id := SomeAssignable(st.remote.apps, KeyOf(o.spec.app)); }
    run, st := Then(Process, s, run, st, Connect(k, Ok, id));
  }

  /** Look for the entry of an app connection. */
  lemma Looking(s: State, k: Key, o: Object) returns (run: seq<Action>, st: State)
    requires s.up && RemoteInv(s.remote) && |KS(s, k).versions| > 0
    requires KS(s, k).pc == AtDisconnect(o) && o.spec.App?
    ensures Leads(Process, s, run, st) && OnlyKey(s, st, k) && st.remote == s.remote
    ensures
      var p := KeyOf(o.spec.app);
      if p in s.remote.apps then
        KS(st, k) == KS(s, k).(pc := AtDisconnectApp(o, s.remote.apps[p].id)) && st.trace == s.trace
      else
        KS(st, k) == KS(s, k).(pc := AtRemove(o)) && st.trace == s.trace + [Cleared(Owner(k, o.uid))]
  {
    SomeListing(s.remote.apps);
    var listing :| IsListing(listing, s.remote.apps);
    ListingFinds(listing, s.remote.apps, KeyOf(o.spec.app));
    run, st := Then(Process, s, [], s, ListApps(k, true, listing));
  }

  /** And disconnect it, if there is one. */
  lemma DisconnectingApp(s: State, k: Key, o: Object) returns (run: seq<Action>, st: State)
    requires s.up && RemoteInv(s.remote) && |KS(s, k).versions| > 0
    requires KS(s, k).pc == AtDisconnect(o) && o.spec.App?
    ensures Leads(Process, s, run, st) && OnlyKey(s, st, k)
    ensures KS(st, k) == KS(s, k).(pc := AtRemove(o))
    ensures st.remote == s.remote.(apps := s.remote.apps - {KeyOf(o.spec.app)})
    ensures st.trace == s.trace + [Cleared(Owner(k, o.uid))]
  {
    var p := KeyOf(o.spec.app);
    run, st := Looking(s, k, o);
    if p in s.remote.apps {
      run, st := Then(Process, s, run, st, DisconnectApp(k, Ok));
      EntryOut(s.remote.apps, p);
    } else {
      assert s.remote.apps - {p} == s.remote.apps;
    }
  }

  /** Identifiers being unique, what goes with an identifier is one entry. */
  lemma EntryOut(apps: map<AppKey, AppEntry>, p: AppKey)
    requires p in apps && forall q :: q in apps && apps[q].id == apps[p].id ==> q == p
    ensures (map q | q in apps && apps[q].id != apps[p].id :: apps[q]) == apps - {p}
  {
  }

  /** Disconnect what the snapshot asks for. */
  lemma Disconnecting(s: State, k: Key) returns (run: seq<Action>, st: State)
    requires s.up && RemoteInv(s.remote) && |KS(s, k).versions| > 0 && KS(s, k).pc.AtDisconnect?
    ensures Leads(Process, s, run, st) && OnlyKey(s, st, k)
    ensures
      var o := KS(s, k).pc.snap;
      && KS(st, k) == KS(s, k).(pc := AtRemove(o))
      && st.remote == Without(s.remote, RemoteIdOf(o.spec))
      && st.trace == s.trace + [Cleared(Owner(k, o.uid))]
  {
    if KS(s, k).pc.snap.spec.Net? {
      run, st := Then(Process, s, [], s, Disconnect(k, Ok));
    } else {
      run, st := DisconnectingApp(s, k, KS(s, k).pc.snap);
    }
  }

  /** Take a key from the queue whose cached version is being deleted, and disconnect it. */
  lemma SendDisconnect(s: State, k: Key) returns (run: seq<Action>, st: State)
    requires s.up && RemoteInv(s.remote) && |KS(s, k).versions| > 0
    requires KS(s, k).queued && KS(s, k).pc.Idle? && Terminating(Cached(KS(s, k)))
    ensures Leads(Process, s, run, st) && OnlyKey(s, st, k)
    ensures
      var o := Cached(KS(s, k)).obj;
      && KS(st, k) == KS(s, k).(queued := false, pc := AtRemove(o))
      && st.remote == Without(s.remote, RemoteIdOf(o.spec))
      && st.trace == s.trace + [Cleared(Owner(k, o.uid))]
  {
    var o := Cached(KS(s, k)).obj;
    var begun, mid := Then(Process, s, [], s, Dequeue(k));
    begun, mid := Then(Process, s, begun, mid, Get(k, true));
    assert KS(mid, k) == KS(s, k).(queued := false, pc := AtDisconnect(o));
    run, st := Disconnecting(mid, k);
    Append(Process, s, begun, mid, run, st);
    run := begun + run;
  }

  /** Carry out a deletion that the cache shows and the queue holds. */
  lemma FinishDeletion(s: State, k: Key, d: Object) returns (run: seq<Action>, st: State)
    requires s.up && RemoteInv(s.remote) && KS(s, k) == KeyState([Present(d)], true, Idle) && Terminating(Present(d))
    ensures Leads(Process, s, run, st) && OnlyKey(s, st, k) && st.now > 0
    ensures KS(st, k) == KeyState([Present(d), Settle(WithoutAwi(d, st.now - 1))], false, Idle)
    ensures st.remote == Without(s.remote, RemoteIdOf(d.spec))
    ensures st.trace == s.trace + [Cleared(Owner(k, d.uid)), Dropped(Owner(k, d.uid))]
  {
    run, st := SendDisconnect(s, k);
    run, st := Then(Process, s, run, st, Remove(k, Ok));
  }
}
