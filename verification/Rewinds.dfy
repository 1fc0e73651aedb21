/** How far back a new process may begin to list: the conditions on restarts under which no
    connection is orphaned, under which no connect follows the loss of the finalizer, and under which
    no live resource loses its connection, are exact. */
module Rewinds {
  import opened Convergence
  import opened KeyInvariants
  import opened Protocol
  import opened Runs
  import opened Safety
  import opened SystemInvariants
  import opened WorkInvariants

  // -------- taking a claim away --------

  /** Delete a resource that carries the finalizer, if it is not being deleted already, and let the
      cache see it. */
  lemma ShowDeletion(s: State, k: Key) returns (run: seq<Action>, st: State, d: Object)
    requires s.up && BaseInv(s) && KS(s, k).pc.Idle?
    requires Current(KS(s, k)).Present? && Awi in Current(KS(s, k)).obj.finalizers
    ensures Leads(Users(iset{}), s, run, st) && OnlyKey(s, st, k) && st.remote == s.remote
    ensures KS(st, k) == KeyState([Present(d)], true, Idle) && Terminating(Present(d))
  {
    var none := Users(iset{});
    assert WorkInv(s, k);
    run, st := CatchUp(s, k);
    Widen(none, s, run, st);
    var o := Current(KS(s, k)).obj;
    d := o;
    RunKeepsBase(s, run);
    assert WorkInv(st, k) && Current(KS(st, k)) == Cached(KS(st, k)) == Present(o);
    if !o.deleting {
      d := o.(deleting := true, rv := st.now);
      run, st := Then(none, s, run, st, UserDelete(k));
      assert KS(st, k).versions == [Present(o), Present(d)];
      assert [Present(o), Present(d)][1..] == [Present(d)];
      run, st := Then(none, s, run, st, Deliver(k));
    }
  }

  /** A resource that carries the finalizer can be brought to lose it: the user deletes it, and the
      operator disconnects and removes the finalizer. */
  lemma Evict(s: State, k: Key) returns (run: seq<Action>, st: State)
    requires s.up && BaseInv(s) && KS(s, k).pc.Idle?
    requires Current(KS(s, k)).Present? && Awi in Current(KS(s, k)).obj.finalizers
    ensures Leads(Users(iset{}), s, run, st) && OnlyKey(s, st, k) && BaseInv(st)
    ensures KS(st, k).pc.Idle? && !CarriesAwi(KS(st, k))
  {
    var begun, mid, d := ShowDeletion(s, k);
    RunKeepsBase(s, begun);
    var rest;
    rest, st := FinishDeletion(mid, k, d);
    Widen(Users(iset{}), mid, rest, st);
    Append(Users(iset{}), s, begun, mid, rest, st);
    run := begun + rest;
    RunKeepsBase(s, run);
  }

  ghost predicate CarriesAwi(ks: KeyState) {
    Current(ks).Present? && Awi in Current(ks).obj.finalizers
  }

  ghost function Claimants(s: State, r: RemoteId): set<Key> {
    set k | k in s.keys && Claims(KS(s, k), r)
  }

  /** All claims on a connection but that of one key can be taken away without touching that key. */
  lemma {:induction false} EvictAll(s: State, r: RemoteId, k: Key) returns (run: seq<Action>, st: State)
    requires s.up && BaseInv(s) && (forall k' :: KS(s, k').pc.Idle?) && !Claims(KS(s, k), r)
    ensures Leads(Users(iset{}), s, run, st) && st.up && BaseInv(st) && Claimants(st, r) == {}
    ensures KS(st, k) == KS(s, k)
    decreases Claimants(s, r)
  {
    if Claimants(s, r) == {} {
      run, st := [], s;
    } else {
      var k' :| k' in Claimants(s, r);
      var begun, mid := Evict(s, k');
      assert Claimants(mid, r) == Claimants(s, r) - {k'} by {
        forall x | x in mid.keys && Claims(KS(mid, x), r)
          ensures x in Claimants(s, r) - {k'}
        {
          assert x != k' && KS(mid, x) == KS(s, x);
        }
        forall x | x in Claimants(s, r) - {k'}
          ensures x in Claimants(mid, r)
        {
          assert KS(mid, x) == KS(s, x);
        }
      }
      var rest;
      rest, st := EvictAll(mid, r, k);
      Append(Users(iset{}), s, begun, mid, rest, st);
      run := begun + rest;
    }
  }

  // -------- a version from the past --------

  /** A version that is there has been announced: the window shows it from the start, or an event
      that passes the filters brings it. */
  lemma {:induction false} Announced(v: seq<Version>, i: nat)
    requires i < |v| && v[i].Present?
    ensures v[0].Present? || WakesBy(v, i)
  {
    if i > 0 {
      if v[i - 1].Present? {
        Announced(v, i - 1);
      } else {
        assert Passes(v[i - 1], v[i]);
      }
    }
  }

  /** After a restart the reconciler can connect any version ahead that connects. */
  lemma Resurrect(s: State, k: Key, i: nat) returns (run: seq<Action>, st: State)
    requires s.up && KS(s, k).pc.Idle? && i < |KS(s, k).versions| && Connects(KS(s, k).versions[i])
    requires Cached(KS(s, k)).Present? ==> KS(s, k).queued
    ensures
      var o := KS(s, k).versions[i].obj;
      && Leads(Process, s, run, st) && Up(st.remote, RemoteIdOf(o.spec))
      && st.trace == s.trace + [Sent(Owner(k, o.uid), true)]
    ensures OnlyKey(s, st, k) && KS(st, k).pc.Idle? && |KS(st, k).versions| > 0
    ensures Current(KS(st, k)) == Current(KS(s, k))
  {
    var v := KS(s, k).versions;
    Announced(v, i);
    var begun, mid := DeliverTo(s, k, i);
    assert v[i..][0] == v[i];
    var rest, id;
    rest, st, id := SendConnect(mid, k);
    Append(Process, s, begun, mid, rest, st);
    run := begun + rest;
  }

  /** What a new process shows of a key. */
  lemma AfterRestart(s: State, a: Action, k: Key)
    requires BaseInv(s) && Enabled(s, a) && a.Restart?
    ensures
      var ks := KS(Next(s, a), k);
      ks.pc.Idle? && (Cached(ks).Present? ==> ks.queued) && Current(ks) == Current(KS(s, k))
  {
    assert WorkInv(s, k);
    RestartFrame(s, a, k);
  }

  lemma UnsoundKey(how: Recency, s: State, a: Action) returns (k: Key, i: nat)
    requires Enabled(s, a) && a.Restart? && !how.Forward? && !FreshStep(how, s, a)
    ensures k in s.keys && k in a.at && a.at[k] + i < |History(s, k)|
    ensures
      var h := History(s, k);
      Connects(h[a.at[k] + i]) && !Backed(how, h[|h| - 1], h[a.at[k] + i].obj)
  {
    k :| k in s.keys && !Sound(how, History(s, k)[a.at[k]..]);
    var v := History(s, k)[a.at[k]..];
    i :| 0 <= i < |v| && Connects(v[i]) && !Backed(how, v[|v| - 1], v[i].obj);
  }

  /** A restart of another kind shows a version that connects and is not backed. */
  lemma UnsoundVersion(how: Recency, s: State, a: Action) returns (k: Key, i: nat)
    requires BaseInv(s) && Enabled(s, a) && a.Restart? && !how.Forward? && !FreshStep(how, s, a)
    ensures k in a.at && a.at[k] + i < |History(s, k)| && i < |KS(Next(s, a), k).versions|
    ensures
      var o := KS(Next(s, a), k).versions[i];
      o == History(s, k)[a.at[k] + i] && Connects(o) && !Backed(how, Current(KS(s, k)), o.obj)
  {
    k, i := UnsoundKey(how, s, a);
    var h, at := History(s, k), a.at[k];
    assert |KS(s, k).versions| > 0 by { assert WorkInv(s, k); }
    assert h[|h| - 1] == Current(KS(s, k));
    assert h[at..][i] == h[at + i];
    assert KS(Next(s, a), k).versions == h[at..] by { RestartFrame(s, a, k); }
  }

  // -------- the condition for no orphans is exact --------

  /** Take the other claims on its connection away, then connect the version from the past. */
  lemma OrphanFrom(s: State, k: Key, i: nat) returns (run: seq<Action>)
    requires s.up && BaseInv(s) && (forall k' :: KS(s, k').pc.Idle?)
    requires i < |KS(s, k).versions| && Connects(KS(s, k).versions[i])
    requires Cached(KS(s, k)).Present? ==> KS(s, k).queued
    requires !Claims(KS(s, k), RemoteIdOf(KS(s, k).versions[i].obj.spec))
    ensures Legal(s, run) && NoRestart(run) && !NoOrphans(Exec(s, run))
  {
    var r := RemoteIdOf(KS(s, k).versions[i].obj.spec);
    var begun, mid := EvictAll(s, r, k);
    var rest, st := Resurrect(mid, k, i);
    Widen(Users(iset{}), mid, rest, st);
    Append(Users(iset{}), s, begun, mid, rest, st);
    run := begun + rest;
    assert forall j :: 0 <= j < |run| ==> Within(Users(iset{}), run[j]);
    forall x | x in st.keys
      ensures !Claims(st.keys[x], r)
    {
      assert KS(st, x) == st.keys[x] && Claims(KS(st, x), r) == Claims(KS(mid, x), r);
      assert x !in Claimants(mid, r);
    }
  }

  /** A restart that goes back to a version which connects, and which the stored one does not back,
      can be followed by a connection that no resource answers for. */
  lemma UnsoundRestartOrphans(s: State, a: Action) returns (run: seq<Action>)
    requires BaseInv(s) && Enabled(s, a) && a.Restart? && !FreshStep(SameConnection, s, a)
    ensures Legal(Next(s, a), run) && NoRestart(run) && !NoOrphans(Exec(Next(s, a), run))
  {
    var k, i := UnsoundVersion(SameConnection, s, a);
    StepKeepsBase(s, a);
    forall k'
      ensures KS(Next(s, a), k').pc.Idle?
    {
      AfterRestart(s, a, k');
    }
    AfterRestart(s, a, k);
    run := OrphanFrom(Next(s, a), k, i);
  }

  /** From any reachable state, a restart is of the allowed kind if and only if no continuation with
      restarts of that kind ever orphans a connection. */
  lemma NoOrphansIffSound(cluster: string, past: seq<Action>, a: Action)
    requires Legal(Init(cluster), past) && Fresh(SameConnection, Init(cluster), past)
    requires Enabled(Exec(Init(cluster), past), a) && a.Restart?
    ensures
      var s := Exec(Init(cluster), past);
      FreshStep(SameConnection, s, a) <==>
      forall run :: Legal(Next(s, a), run) && Fresh(SameConnection, Next(s, a), run) ==> NoOrphans(Exec(Next(s, a), run))
  {
    var s := Exec(Init(cluster), past);
    Reachable(SameConnection, cluster, past);
    if FreshStep(SameConnection, s, a) {
      StepKeepsInv(SameConnection, s, a);
      forall run | Legal(Next(s, a), run) && Fresh(SameConnection, Next(s, a), run)
        ensures NoOrphans(Exec(Next(s, a), run))
      {
        RunKeepsInv(SameConnection, Next(s, a), run);
        InvHasNoOrphans(SameConnection, Exec(Next(s, a), run));
      }
    } else {
      var run := UnsoundRestartOrphans(s, a);
      NoRestartIsFresh(SameConnection, Next(s, a), run);
    }
  }

  // -------- the condition for justified drops is exact --------

  /** An incarnation that once carried the finalizer is still stored with it, or its loss is on record. */
  lemma BackedOrRecorded(s: State, k: Key, i: nat)
    requires WorkInv(s, k) && i < |History(s, k)|
    requires History(s, k)[i].Present? && Awi in History(s, k)[i].obj.finalizers
    ensures
      var o := History(s, k)[i].obj;
      Backed(SameIncarnation, Current(KS(s, k)), o) || Dropped(Owner(k, o.uid)) in s.trace
  {
    var h := History(s, k);
    assert h[|h| - 1] == Current(KS(s, k));
    if Holds(KS(s, k), h[i].obj.uid) && i < |h| - 1 {
      assert Later(h[i].obj, h[|h| - 1].obj);
    }
  }

  /** Connecting an incarnation whose loss is on record. */
  lemma SendsAfterDrop(s: State, k: Key, i: nat) returns (run: seq<Action>)
    requires s.up && KS(s, k).pc.Idle? && i < |KS(s, k).versions| && Connects(KS(s, k).versions[i])
    requires Cached(KS(s, k)).Present? ==> KS(s, k).queued
    requires Dropped(Owner(k, KS(s, k).versions[i].obj.uid)) in s.trace
    ensures Legal(s, run) && NoRestart(run) && !NoSentAfterDrop(Exec(s, run).trace)
  {
    var ow, st := Owner(k, KS(s, k).versions[i].obj.uid), s;
    run, st := Resurrect(s, k, i);
    assert forall j :: 0 <= j < |run| ==> Within(Process, run[j]);
    var j :| 0 <= j < |s.trace| && s.trace[j] == Dropped(ow);
    assert st.trace[j] == Dropped(ow) && st.trace[|s.trace|] == Sent(ow, true);
  }

  lemma UnsoundRestartSends(s: State, a: Action) returns (run: seq<Action>)
    requires BaseInv(s) && Enabled(s, a) && a.Restart? && !FreshStep(SameIncarnation, s, a)
    ensures Legal(Next(s, a), run) && NoRestart(run) && !NoSentAfterDrop(Exec(Next(s, a), run).trace)
  {
    var k, i := UnsoundVersion(SameIncarnation, s, a);
    assert WorkInv(s, k);
    BackedOrRecorded(s, k, a.at[k] + i);
    AfterRestart(s, a, k);
    run := SendsAfterDrop(Next(s, a), k, i);
  }

  /** From any reachable state, a restart goes back to no version of another incarnation that connects
      if and only if no continuation sends a connect for an incarnation that lost the finalizer. */
  lemma NoSentAfterDropIffSound(cluster: string, past: seq<Action>, a: Action)
    requires Legal(Init(cluster), past) && Fresh(SameIncarnation, Init(cluster), past)
    requires Enabled(Exec(Init(cluster), past), a) && a.Restart?
    ensures
      var s := Exec(Init(cluster), past);
      FreshStep(SameIncarnation, s, a) <==>
      forall run :: Legal(Next(s, a), run) && Fresh(SameIncarnation, Next(s, a), run) ==>
        NoSentAfterDrop(Exec(Next(s, a), run).trace)
  {
    var s := Exec(Init(cluster), past);
    Reachable(SameIncarnation, cluster, past);
    if FreshStep(SameIncarnation, s, a) {
      StepKeepsInv(SameIncarnation, s, a);
      forall run | Legal(Next(s, a), run) && Fresh(SameIncarnation, Next(s, a), run)
        ensures NoSentAfterDrop(Exec(Next(s, a), run).trace)
      {
        RunKeepsInv(SameIncarnation, Next(s, a), run);
      }
    } else {
      var run := UnsoundRestartSends(s, a);
      NoRestartIsFresh(SameIncarnation, Next(s, a), run);
    }
  }

  // -------- the condition for live connections to stay up is exact --------

  /** After a restart the reconciler can disconnect any version ahead that is being deleted. */
  lemma GiveUp(s: State, k: Key, i: nat) returns (run: seq<Action>, st: State)
    requires s.up && RemoteInv(s.remote) && KS(s, k).pc.Idle?
    requires i < |KS(s, k).versions| && Terminating(KS(s, k).versions[i])
    requires Cached(KS(s, k)).Present? ==> KS(s, k).queued
    ensures Leads(Process, s, run, st) && Current(KS(st, k)) == Current(KS(s, k)) && s.trace <= st.trace
    ensures !Up(st.remote, RemoteIdOf(KS(s, k).versions[i].obj.spec))
  {
    var v := KS(s, k).versions;
    Announced(v, i);
    var begun, mid := DeliverTo(s, k, i);
    assert v[i..][0] == v[i];
    run, st := SendDisconnect(mid, k);
    Append(Process, s, begun, mid, run, st);
    run := begun + run;
  }

  lemma HarshVersion(s: State, a: Action) returns (k: Key, i: nat)
    requires BaseInv(s) && Enabled(s, a) && a.Restart? && !MildStep(false, s, a)
    ensures LiveAndConnected(s, k) && i < |KS(Next(s, a), k).versions|
    ensures
      var v := KS(Next(s, a), k).versions[i];
      Terminating(v) && RemoteIdOf(v.obj.spec) == RemoteIdOf(Current(KS(s, k)).obj.spec)
  {
    k :| k in s.keys && LiveAndConnected(s, k)
         && !HarmlessWindow(false, History(s, k)[a.at[k]..], Current(KS(s, k)).obj);
    var v := History(s, k)[a.at[k]..];
    i :| 0 <= i < |v| && !Harmless(false, v[i], Current(KS(s, k)).obj);
    assert KS(Next(s, a), k).versions == v by { RestartFrame(s, a, k); }
  }

  /** A restart that shows the connection of a live resource being given up can be followed by its loss. */
  lemma HarshRestartDeprives(s: State, a: Action) returns (run: seq<Action>)
    requires BaseInv(s) && Enabled(s, a) && a.Restart? && !MildStep(false, s, a)
    ensures Legal(Next(s, a), run) && NoRestart(run) && UsesOnly(run, iset{})
    ensures !AllStayUp(Exec(Next(s, a), run))
  {
    var k, i := HarshVersion(s, a);
    AfterRestart(s, a, k);
    StepKeepsBase(s, a);
    var st;
    run, st := GiveUp(Next(s, a), k, i);
    assert forall j :: 0 <= j < |run| ==> Within(Process, run[j]);
    assert LiveAndConnected(st, k);
  }

  /** From any reachable state, with no two names asking for one connection, a restart is mild if and
      only if no continuation ever takes the connection from a live connected resource. */
  lemma StayUpIffMild(cluster: string, made: iset<(Key, Spec)>, past: seq<Action>, a: Action)
    requires Exclusive(made) && RunOf(cluster, made, past) && Enabled(Exec(Init(cluster), past), a) && a.Restart?
    ensures
      var s := Exec(Init(cluster), past);
      MildStep(false, s, a) <==>
      forall run :: Legal(Next(s, a), run) && Mild(false, Next(s, a), run) && UsesOnly(run, made) ==>
        AllStayUp(Exec(Next(s, a), run))
  {
    var s := Exec(Init(cluster), past);
    ReachableClaims(cluster, past, made);
    if MildStep(false, s, a) {
      StepKeepsClaims(s, a, made);
      forall run | Legal(Next(s, a), run) && Mild(false, Next(s, a), run) && UsesOnly(run, made)
        ensures AllStayUp(Exec(Next(s, a), run))
      {
        RunKeepsClaims(Next(s, a), run, made);
        ClaimedStayUp(Exec(Next(s, a), run), made);
      }
    } else {
      var run := HarshRestartDeprives(s, a);
      NoRestartIsMild(false, Next(s, a), run);
      assert UsesOnly(run, made) by { assert forall i :: 0 <= i < |run| ==> Respects(run[i], iset{}); }
    }
  }
}
