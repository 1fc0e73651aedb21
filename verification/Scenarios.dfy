/** The life of one resource, and runs in which a property fails: two resources share a connection,
    with or without ever existing together, and a new process lists from the past. */
module Scenarios {
  import opened AppConnections
  import opened Convergence
  import opened KeyInvariants
  import opened Protocol
  import opened Rewinds
  import opened Runs
  import opened WorkInvariants

  // -------- the life of one resource --------

  function Born(spec: Spec, now: nat): Object {
    Object(now, now, spec, {}, false, "")
  }

  /** A resource is created, up to the update that adds the finalizer. */
  lemma BeginBringUp(s: State, k: Key, spec: Spec) returns (run: seq<Action>, st: State)
    requires s.up && KS(s, k) == FRESH_KEY && KindOf(spec) == k.kind
    ensures Leads(Users(iset{(k, spec)}), s, run, st) && OnlyKey(s, st, k) && st.now == s.now + 4
    ensures st.remote == s.remote && st.trace == s.trace
    ensures KS(st, k) == KeyState([Present(Born(spec, s.now))], false, AtAdd(Born(spec, s.now)))
  {
    var o, scope := Born(spec, s.now), Users(iset{(k, spec)});
    run, st := Then(scope, s, [], s, Create(k, spec, {}));
    assert KS(st, k) == KeyState([Absent, Present(o)], false, Idle);
    run, st := Then(scope, s, run, st, Deliver(k));
    assert KS(st, k) == KeyState([Present(o)], true, Idle);
    run, st := Then(scope, s, run, st, Dequeue(k));
    run, st := Then(scope, s, run, st, Get(k, true));
  }

  /** A resource is created and connected without any disturbance. */
  lemma BringUp(s: State, k: Key, spec: Spec) returns (run: seq<Action>, st: State, id: string)
    requires s.up && KS(s, k) == FRESH_KEY && KindOf(spec) == k.kind && Sendable(spec)
    ensures Leads(Users(iset{(k, spec)}), s, run, st) && OnlyKey(s, st, k)
    ensures KS(st, k) == KeyState([Present(WithAwi(Born(spec, s.now), s.now + 4))], false, Idle)
    ensures st.remote == Joined(s.remote, spec, Owner(k, s.now), id, s.cluster)
    ensures st.trace == s.trace + [Sent(Owner(k, s.now), true)]
  {
    var o, scope := Born(spec, s.now), Users(iset{(k, spec)});
    var w := WithAwi(o, s.now + 4);
    run, st := BeginBringUp(s, k, spec);
    run, st := Then(scope, s, run, st, Add(k, Ok));
    assert KS(st, k) == KeyState([Present(o), Present(w)], false, AtConnect(w));
    id := "";
    if spec.App? { id := SomeAssignable(st.remote.apps, KeyOf(spec.app)); }
    run, st := Then(scope, s, run, st, Connect(k, Ok, id));
    assert [Present(o), Present(w)][1..] == [Present(w)];
    run, st := Then(scope, s, run, st, Deliver(k));
  }

  /** A resource is created and gets its finalizer, but the answer to that update is lost. */
  lemma Register(s: State, k: Key, spec: Spec) returns (run: seq<Action>, st: State)
    requires s.up && KS(s, k) == FRESH_KEY && KindOf(spec) == k.kind
    ensures Leads(Users(iset{(k, spec)}), s, run, st) && OnlyKey(s, st, k)
    ensures KS(st, k) == KeyState([Present(WithAwi(Born(spec, s.now), s.now + 4))], true, Idle)
    ensures st.remote == s.remote && st.trace == s.trace
  {
    var o, scope := Born(spec, s.now), Users(iset{(k, spec)});
    var w := WithAwi(o, s.now + 4);
    run, st := BeginBringUp(s, k, spec);
    run, st := Then(scope, s, run, st, Add(k, ErrDone));
    assert KS(st, k) == KeyState([Present(o), Present(w)], true, Idle);
    assert [Present(o), Present(w)][1..] == [Present(w)];
    run, st := Then(scope, s, run, st, Deliver(k));
  }

  /** The user deletes a resource at rest, and the cache sees it. */
  lemma BeginTearDown(s: State, k: Key, o: Object) returns (run: seq<Action>, st: State)
    requires s.up && KS(s, k).versions == [Present(o)] && KS(s, k).pc.Idle?
    requires !o.deleting && o.finalizers == {Awi}
    ensures Leads(Users(iset{}), s, run, st) && OnlyKey(s, st, k)
    ensures KS(st, k) == KeyState([Present(o.(deleting := true, rv := s.now))], true, Idle)
    ensures st.remote == s.remote && st.trace == s.trace
  {
    var d := o.(deleting := true, rv := s.now);
    run, st := Then(Users(iset{}), s, [], s, UserDelete(k));
    assert KS(st, k).versions == [Present(o), Present(d)];
    assert [Present(o), Present(d)][1..] == [Present(d)];
    run, st := Then(Users(iset{}), s, run, st, Deliver(k));
  }

  /** A resource at rest is deleted and disconnected without any disturbance. */
  lemma TearDown(s: State, k: Key, o: Object) returns (run: seq<Action>, st: State)
    requires s.up && RemoteInv(s.remote) && KS(s, k).versions == [Present(o)] && KS(s, k).pc.Idle?
    requires !o.deleting && o.finalizers == {Awi}
    ensures Leads(Users(iset{}), s, run, st) && OnlyKey(s, st, k) && KS(st, k) == FRESH_KEY && k in st.keys
    ensures st.remote == Without(s.remote, RemoteIdOf(o.spec))
    ensures st.trace == s.trace + [Cleared(Owner(k, o.uid)), Dropped(Owner(k, o.uid))]
  {
    var none, d := Users(iset{}), o.(deleting := true, rv := s.now);
    var begun, mid := BeginTearDown(s, k, o);
    var rest, at := FinishDeletion(mid, k, d);
    Widen(none, mid, rest, at);
    Append(none, s, begun, mid, rest, at);
    assert KS(at, k) == KeyState([Present(d), Absent], false, Idle);
    assert [Present(d), Absent][1..] == [Absent];
    run, st := Then(none, s, begun + rest, at, Deliver(k));
  }

  /** Creating and deleting a resource leaves the server as it was, if nobody had the connection. */
  lemma ConnectThenDisconnect(s: State, k: Key, spec: Spec) returns (run: seq<Action>, st: State)
    requires s.up && RemoteInv(s.remote) && KS(s, k) == FRESH_KEY && KindOf(spec) == k.kind && Sendable(spec)
    requires !Up(s.remote, RemoteIdOf(spec))
    ensures Leads(Users(iset{(k, spec)}), s, run, st)
    ensures st.remote == s.remote && forall k' :: KS(st, k') == KS(s, k')
  {
    var up, mid, id := BringUp(s, k, spec);
    RunKeepsRemote(s, up);
    var down;
    down, st := TearDown(mid, k, WithAwi(Born(spec, s.now), s.now + 4));
    Narrow(mid, down, st, iset{(k, spec)});
    Append(Users(iset{(k, spec)}), s, up, mid, down, st);
    run := up + down;
    assert Without(Joined(s.remote, spec, Owner(k, s.now), id, s.cluster), RemoteIdOf(spec)) == s.remote;
  }

  /** A run that creates less is a run that creates at most this. */
  lemma Narrow(s: State, run: seq<Action>, st: State, made: iset<(Key, Spec)>)
    requires Leads(Users(iset{}), s, run, st)
    ensures Leads(Users(made), s, run, st)
  {
  }

  // -------- sharing a connection --------

  /** A resource is brought to carry the finalizer; its request is sent if it can be. */
  lemma Adopt(s: State, k: Key, spec: Spec) returns (run: seq<Action>, st: State)
    requires s.up && KS(s, k) == FRESH_KEY && KindOf(spec) == k.kind
    ensures Leads(Users(iset{(k, spec)}), s, run, st) && OnlyKey(s, st, k) && s.trace <= st.trace
    ensures
      && KS(st, k).versions == [Present(WithAwi(Born(spec, s.now), s.now + 4))]
      && KS(st, k).pc.Idle?
  {
    if Sendable(spec) {
      var id;
      run, st, id := BringUp(s, k, spec);
    } else {
      run, st := Register(s, k, spec);
    }
  }

  /** The resource is live and was connected, but its connection is gone, and nobody will act on it. */
  ghost predicate Deprived(s: State, k: Key) {
    && Settled(s) && LiveAndConnected(s, k)
    && !Up(s.remote, RemoteIdOf(Current(KS(s, k)).obj.spec))
  }

  /** Two names may ask for one connection, with the same specification or not; deleting one then
      takes it from the other, even if the request of the one deleted could never be sent. */
  lemma SharedConnectionIsLost(cluster: string, k1: Key, s1: Spec, k2: Key, s2: Spec) returns (run: seq<Action>)
    requires k1 != k2 && KindOf(s1) == k1.kind && KindOf(s2) == k2.kind
    requires RemoteIdOf(s1) == RemoteIdOf(s2) && Sendable(s2)
    ensures Legal(Init(cluster), run) && NoRestart(run) && UsesOnly(run, iset{(k1, s1), (k2, s2)})
    ensures Deprived(Exec(Init(cluster), run), k2)
  {
    var s0, scope := Init(cluster), Users(iset{(k1, s1), (k2, s2)});
    var r2, m2, id := BringUp(s0, k2, s2);
    WidenUsers(s0, r2, m2, k2, s2, scope.made);
    var r1, m1 := Adopt(m2, k1, s1);
    WidenUsers(m2, r1, m1, k1, s1, scope.made);
    Append(scope, s0, r2, m2, r1, m1);
    InitBase(cluster);
    RunKeepsBase(s0, r2 + r1);
    var r3, st := TearDown(m1, k1, WithAwi(Born(s1, m2.now), m2.now + 4));
    Narrow(m1, r3, st, scope.made);
    Append(scope, s0, r2 + r1, m1, r3, st);
    run := r2 + r1 + r3;
    WithinUsers(run, scope.made);
    assert m2.trace[0] == m1.trace[0] == st.trace[0] == Sent(Owner(k2, s0.now), true);
  }

  lemma WidenUsers(s: State, run: seq<Action>, st: State, k: Key, spec: Spec, made: iset<(Key, Spec)>)
    requires Leads(Users(iset{(k, spec)}), s, run, st) && (k, spec) in made
    ensures Leads(Users(made), s, run, st)
  {
  }

  lemma WithinUsers(run: seq<Action>, made: iset<(Key, Spec)>)
    requires AllWithin(Users(made), run)
    ensures NoRestart(run) && UsesOnly(run, made)
  {
  }

  // -------- without ever existing together --------

  /** Let a key whose object is gone come to rest. */
  lemma Drain(s: State, k: Key) returns (run: seq<Action>, st: State)
    requires s.up && |KS(s, k).versions| > 0 && KS(s, k).pc.Idle? && Current(KS(s, k)).Absent?
    ensures Leads(Process, s, run, st) && OnlyKey(s, st, k) && KS(st, k) == FRESH_KEY
    ensures st.remote == s.remote && st.trace == s.trace
  {
    run, st := CatchUp(s, k);
    if KS(st, k).queued {
      run, st := Then(Process, s, run, st, Dequeue(k));
      run, st := Then(Process, s, run, st, Get(k, true));
    }
  }

  /** A status write queues a terminating resource again after its key was taken from the queue. */
  lemma QueuedTwice(s: State, k: Key, d0: Object) returns (run: seq<Action>, st: State, d: Object)
    requires s.up && KS(s, k) == KeyState([Present(d0)], true, Idle) && Terminating(Present(d0))
    ensures Leads(Users(iset{}), s, run, st) && OnlyKey(s, st, k)
    ensures KS(st, k) == KeyState([Present(d)], true, Dequeued) && Terminating(Present(d))
    ensures d.spec == d0.spec && d.finalizers == d0.finalizers
    ensures st.remote == s.remote && st.trace == s.trace
  {
    var none := Users(iset{});
    run, st := Then(none, s, [], s, Dequeue(k));
    d := d0.(status := "x", rv := st.now);
    run, st := Then(none, s, run, st, StatusWrite(k, "x"));
    assert KS(st, k).versions == [Present(d0), Present(d)];
    assert [Present(d0), Present(d)][1..] == [Present(d)];
    run, st := Then(none, s, run, st, Deliver(k));
  }

  /** Such a resource is gone from the server while the cache still shows it terminating. */
  lemma LeaveQueued(s: State, k: Key, o: Object) returns (run: seq<Action>, st: State, d: Object)
    requires s.up && RemoteInv(s.remote) && KS(s, k) == KeyState([Present(o)], false, Idle)
    requires !o.deleting && o.finalizers == {Awi}
    ensures Leads(Users(iset{}), s, run, st) && OnlyKey(s, st, k)
    ensures KS(st, k) == KeyState([Present(d), Absent], true, Idle) && Terminating(Present(d)) && d.spec == o.spec
    ensures s.trace <= st.trace
  {
    var none := Users(iset{});
    var begun, mid := BeginTearDown(s, k, o);
    run, st, d := QueuedTwice(mid, k, Cached(KS(mid, k)).obj);
    Append(none, s, begun, mid, run, st);
    run, st := Then(none, s, begun + run, st, Get(k, true));
    assert KS(st, k) == KeyState([Present(d)], true, AtDisconnect(d));
    RunKeepsRemote(s, run);
    var rest, at := Disconnecting(st, k);
    Widen(none, st, rest, at);
    Append(none, s, run, st, rest, at);
    run, st := Then(none, s, run + rest, at, Remove(k, Ok));
  }

  /** The reconcile that follows disconnects once more, and only then learns that it is late. */
  lemma LateDisconnect(s: State, k: Key, d: Object) returns (run: seq<Action>, st: State)
    requires s.up && RemoteInv(s.remote)
    requires KS(s, k) == KeyState([Present(d), Absent], true, Idle) && Terminating(Present(d))
    ensures Leads(Process, s, run, st) && OnlyKey(s, st, k) && KS(st, k) == FRESH_KEY
    ensures st.remote == Without(s.remote, RemoteIdOf(d.spec)) && s.trace <= st.trace
  {
    var at;
    run, at := SendDisconnect(s, k);
    run, at := Then(Process, s, run, at, Remove(k, ErrLost));
    var end;
    end, st := Drain(at, k);
    Append(Process, s, run, at, end, st);
    run := run + end;
  }

  /** The first resource comes and goes. */
  lemma FirstLife(cluster: string, k: Key, spec: Spec) returns (run: seq<Action>, st: State, d: Object)
    requires KindOf(spec) == k.kind && Sendable(spec)
    ensures Leads(Users(iset{(k, spec)}), Init(cluster), run, st) && OnlyKey(Init(cluster), st, k) && BaseInv(st)
    ensures KS(st, k) == KeyState([Present(d), Absent], true, Idle) && Terminating(Present(d)) && d.spec == spec
  {
    var s := Init(cluster);
    InitBase(cluster);
    var up, mid, id := BringUp(s, k, spec);
    RunKeepsBase(s, up);
    var down;
    down, st, d := LeaveQueued(mid, k, WithAwi(Born(spec, s.now), s.now + 4));
    Narrow(mid, down, st, iset{(k, spec)});
    Append(Users(iset{(k, spec)}), s, up, mid, down, st);
    run := up + down;
    RunKeepsBase(s, run);
  }

  /** The second one lives, and the late disconnect of the first hits it. */
  lemma SecondLife(s: State, k1: Key, d: Object, k2: Key, spec: Spec) returns (run: seq<Action>, st: State)
    requires s.up && BaseInv(s) && k1 != k2 && (forall k :: k != k1 ==> KS(s, k) == FRESH_KEY)
    requires KS(s, k1) == KeyState([Present(d), Absent], true, Idle) && Terminating(Present(d))
    requires KindOf(spec) == k2.kind && Sendable(spec) && RemoteIdOf(d.spec) == RemoteIdOf(spec)
    ensures Leads(Users(iset{(k2, spec)}), s, run, st) && Deprived(st, k2)
  {
    var up, mid, id := BringUp(s, k2, spec);
    RunKeepsBase(s, up);
    var late;
    late, st := LateDisconnect(mid, k1, d);
    Widen(Users(iset{(k2, spec)}), mid, late, st);
    Append(Users(iset{(k2, spec)}), s, up, mid, late, st);
    run := up + late;
    assert st.trace[|s.trace|] == mid.trace[|s.trace|] == Sent(Owner(k2, s.now), true);
  }

  /** The two resources need not exist together, and no call need fail but by a conflict: when the
      second one is created the first is gone from the API server. */
  lemma LostWithoutMeeting(cluster: string, k1: Key, s1: Spec, k2: Key, s2: Spec)
    returns (first: seq<Action>, second: seq<Action>)
    requires k1 != k2 && KindOf(s1) == k1.kind && KindOf(s2) == k2.kind
    requires RemoteIdOf(s1) == RemoteIdOf(s2) && Sendable(s1) && Sendable(s2)
    ensures Legal(Init(cluster), first) && NoRestart(first) && UsesOnly(first, iset{(k1, s1)})
    ensures forall k :: Current(KS(Exec(Init(cluster), first), k)).Absent?
    ensures Legal(Exec(Init(cluster), first), second) && NoRestart(second) && UsesOnly(second, iset{(k2, s2)})
    ensures Deprived(Exec(Exec(Init(cluster), first), second), k2)
  {
    var mid, d, st;
    first, mid, d := FirstLife(cluster, k1, s1);
    WithinUsers(first, iset{(k1, s1)});
    second, st := SecondLife(mid, k1, d, k2, s2);
    WithinUsers(second, iset{(k2, s2)});
  }

  // -------- the conditions are exact --------

  /** Restricting users to certain resources, no live connected resource ever loses its connection if
      and only if no two names can ask for one connection that one of them can get. */
  lemma StayUpIffExclusive(cluster: string, made: iset<(Key, Spec)>)
    ensures Exclusive(made) <==> forall run :: RunOf(cluster, made, run) ==> AllStayUp(Exec(Init(cluster), run))
  {
    if Exclusive(made) {
      forall run | RunOf(cluster, made, run)
        ensures AllStayUp(Exec(Init(cluster), run))
      {
        LiveConnectionsStayUp(cluster, run, made);
      }
    } else {
      var run, k := SharingDeprives(cluster, made);
    }
  }

  /** And at rest the server has exactly the connections of the live resources under the same condition. */
  lemma ExactIffExclusive(cluster: string, made: iset<(Key, Spec)>)
    ensures
      Exclusive(made) <==>
      forall run :: RunOf(cluster, made, run) && Fresh(SameConnection, Init(cluster), run)
                    && Settled(Exec(Init(cluster), run)) ==>
        Exact(Exec(Init(cluster), run))
  {
    if Exclusive(made) {
      forall run | RunOf(cluster, made, run) && Fresh(SameConnection, Init(cluster), run)
                   && Settled(Exec(Init(cluster), run))
        ensures Exact(Exec(Init(cluster), run))
      {
        SettledIsExact(cluster, run, made);
      }
    } else {
      var run, k := SharingDeprives(cluster, made);
      var s := Exec(Init(cluster), run);
      assert k in s.keys && WantedBy(s.keys[k], RemoteIdOf(Current(KS(s, k)).obj.spec));
    }
  }

  lemma SharingDeprives(cluster: string, made: iset<(Key, Spec)>) returns (run: seq<Action>, k: Key)
    requires !Exclusive(made)
    ensures RunOf(cluster, made, run) && Fresh(SameConnection, Init(cluster), run)
    ensures Deprived(Exec(Init(cluster), run), k)
  {
    var k1, s1, k2, s2 :|
      CanBe(made, k1, s1) && CanBe(made, k2, s2) && RemoteIdOf(s1) == RemoteIdOf(s2) && Sendable(s2) && k1 != k2;
    run := SharedConnectionIsLost(cluster, k1, s1, k2, s2);
    k := k2;
    NoRestartIsFresh(SameConnection, Init(cluster), run);
    NoRestartIsMild(false, Init(cluster), run);
    forall i | 0 <= i < |run|
      ensures Respects(run[i], made)
    {
      assert Respects(run[i], iset{(k1, s1), (k2, s2)});
    }
  }

  // -------- listing from the past --------

  /** The state after a resource has come and gone, with the place of its connected version in the
      history. */
  lemma ComeAndGone(cluster: string, k: Key, spec: Spec) returns (past: seq<Action>, st: State, at: nat)
    requires KindOf(spec) == k.kind && Sendable(spec)
    ensures Leads(Users(iset{(k, spec)}), Init(cluster), past, st) && st.up
    ensures forall k' :: KS(st, k') == FRESH_KEY
    ensures k in st.keys && at < |History(st, k)| && History(st, k)[at] == Present(WithAwi(Born(spec, 0), 4))
  {
    var s0 := Init(cluster);
    var w := WithAwi(Born(spec, 0), 4);
    var up, mid, id := BringUp(s0, k, spec);
    at := |History(mid, k)| - 1;
    InitBase(cluster);
    RunKeepsBase(s0, up);
    var down;
    down, st := TearDown(mid, k, w);
    Narrow(mid, down, st, iset{(k, spec)});
    Append(Users(iset{(k, spec)}), s0, up, mid, down, st);
    past := up + down;
    WithinUsers(down, iset{(k, spec)});
    HistoryGrows(mid, down, k);
    assert History(mid, k)[at] == Present(w);
  }

  /** A new process whose cache of one key starts in the past, and of the others where they were. */
  lemma ListFromPast(s: State, k: Key, at: nat) returns (a: Action)
    requires (forall k' :: KS(s, k') == FRESH_KEY) && k in s.keys && at < |History(s, k)|
    ensures a.Restart? && Enabled(s, a) && KS(Next(s, a), k) == Restarted(History(s, k), at)
    ensures Current(KS(Next(s, a), k)).Absent? && Next(s, a).up
    ensures forall k' :: k' != k ==> KS(Next(s, a), k') == FRESH_KEY
  {
    forall k' | k' in s.keys
      ensures |Past(s, k')| < |History(s, k')|
    {
      assert KS(s, k') == FRESH_KEY;
    }
    a := Restart(map k' | k' in s.keys :: if k' == k then at else |Past(s, k')|);
    RestartFrame(s, a, k);
    assert KS(s, k) == FRESH_KEY;
    forall k' | k' != k
      ensures KS(Next(s, a), k') == FRESH_KEY
    {
      assert KS(s, k') == FRESH_KEY;
      RestartFrame(s, a, k');
      assert History(s, k')[|Past(s, k')|..] == [Absent];
    }
  }

  /** A new process that lists from the past connects a resource that is gone, and when everything has
      settled no resource at all is left, but the connection is. */
  lemma RestartFromPastOrphans(cluster: string, k: Key, spec: Spec)
    returns (past: seq<Action>, a: Action, run: seq<Action>)
    requires KindOf(spec) == k.kind && Sendable(spec)
    ensures Legal(Init(cluster), past) && NoRestart(past)
    ensures a.Restart? && Enabled(Exec(Init(cluster), past), a)
    ensures Legal(Next(Exec(Init(cluster), past), a), run) && NoRestart(run)
    ensures
      var s := Exec(Next(Exec(Init(cluster), past), a), run);
      Up(s.remote, RemoteIdOf(spec)) && forall k' :: KS(s, k') == FRESH_KEY
  {
    var s, at;
    past, s, at := ComeAndGone(cluster, k, spec);
    WithinUsers(past, iset{(k, spec)});
    a := ListFromPast(s, k, at);
    var s' := Next(s, a);
    assert KS(s', k).versions[0] == History(s, k)[at];
    var rest, mid := Resurrect(s', k, 0);
    var end, st := Drain(mid, k);
    Append(Process, s', rest, mid, end, st);
    run := rest + end;
    assert forall i :: 0 <= i < |run| ==> Within(Process, run[i]);
  }
}
