/** The whole system comes to rest: a run that nothing disturbs has a bounded number of steps, it can go
    on until every key is at rest, and then the AWI server has exactly the connections of the live
    resources. */
module Quiescence {
  import opened Convergence
  import opened KeyInvariants
  import opened Liveness
  import opened Protocol
  import opened Safety
  import opened SystemInvariants
  import opened WorkInvariants

  // -------- the measure of one key --------

  function PhaseRest(ks: KeyState): nat {
    match ks.pc
    case Idle => 0
    case Dequeued => 4
    case AtAdd(o) => if Matches(ks, o) then 3 else 6
    case AtConnect(_) => 1
    case AtDisconnect(o) => if Matches(ks, o) then 3 else 8
    case AtDisconnectApp(o, _) => if Matches(ks, o) then 2 else 7
    case AtRemove(o) => if Matches(ks, o) then 1 else 6
  }

  /** What the operator may still write to the stored object: it adds the finalizer, and it removes it. */
  function Potential(v: Version): nat {
    if v.Absent? then 0 else if Awi in v.obj.finalizers then 20 else if !v.obj.deleting then 40 else 0
  }

  function Rest(ks: KeyState): nat {
    6 * Wakes(ks.versions) + (if |ks.versions| > 0 then |ks.versions| - 1 else 0)
    + (if ks.queued then 5 else 0) + PhaseRest(ks) + Potential(Current(ks))
  }

  ghost predicate Calmer(ks: KeyState, a: Action, now: nat)
    requires !a.Restart? && KeyEnabled(ks, a)
  {
    Rest(KeyStep(ks, a, now)) < Rest(ks)
  }

  lemma DeliverCalms(k: Key, ks: KeyState, now: nat)
    requires KeyEnabled(ks, Deliver(k))
    ensures Calmer(ks, Deliver(k), now)
  {
    WakesStep(ks, Deliver(k), now);
  }

  lemma ReadCalms(ks: KeyState, a: Action, now: nat)
    requires (a.Dequeue? || a.Get?) && KeyEnabled(ks, a) && !Disturbs(ks, a)
    ensures Calmer(ks, a, now)
  {
    if a.Get? { assert ks.versions[0] == Current(ks); }
  }

  lemma UpdateCalms(k: Key, ks: KeyState, a: Action, now: nat)
    requires KeyInv(k, ks, now) && (a.Add? || a.Remove?) && a.key == k && KeyEnabled(ks, a) && !Disturbs(ks, a)
    ensures Calmer(ks, a, now)
  {
    WakesStep(ks, a, now);
    if !a.out.ErrLost? { MatchIsCurrent(ks, ks.pc.snap); }
  }

  lemma RpcCalms(ks: KeyState, a: Action, now: nat)
    requires (a.Connect? || a.Disconnect? || a.ListApps? || a.DisconnectApp?) && KeyEnabled(ks, a) && !Disturbs(ks, a)
    ensures Calmer(ks, a, now)
  {
  }

  /** Every undisturbed step, whether its key needs work or not, brings the key closer to rest. */
  lemma StepCalms(k: Key, ks: KeyState, a: Action, now: nat)
    requires KeyInv(k, ks, now) && !a.Restart? && a.key == k && KeyEnabled(ks, a) && !Disturbs(ks, a)
    ensures Rest(KeyStep(ks, a, now)) < Rest(ks)
  {
    assert Calmer(ks, a, now) by {
      if a.Deliver? {
        DeliverCalms(k, ks, now);
      } else if a.Dequeue? || a.Get? {
        ReadCalms(ks, a, now);
      } else if a.Add? || a.Remove? {
        UpdateCalms(k, ks, a, now);
      } else {
        RpcCalms(ks, a, now);
      }
    }
  }

  // -------- the measure of all keys --------

  ghost function Total(s: State, keys: set<Key>): nat {
    if keys == {} then 0
    else
      var k :| k in keys;
      Rest(KS(s, k)) + Total(s, keys - {k})
  }

  /** The order of summation does not matter. */
  lemma {:induction false} TotalSplit(s: State, keys: set<Key>, k: Key)
    requires k in keys
    ensures Total(s, keys) == Rest(KS(s, k)) + Total(s, keys - {k})
    decreases keys
  {
    var k' :| k' in keys && Total(s, keys) == Rest(KS(s, k')) + Total(s, keys - {k'});
    if k' != k {
      TotalSplit(s, keys - {k'}, k);
      TotalSplit(s, keys - {k}, k');
      assert keys - {k'} - {k} == keys - {k} - {k'};
    }
  }

  lemma {:induction false} TotalSame(s: State, t: State, keys: set<Key>)
    requires forall k :: k in keys ==> KS(s, k) == KS(t, k)
    ensures Total(s, keys) == Total(t, keys)
    decreases keys
  {
    if keys != {} {
      var k :| k in keys;
      TotalSplit(s, keys, k);
      TotalSplit(t, keys, k);
      TotalSame(s, t, keys - {k});
    }
  }

  lemma StepLowersTotal(s: State, a: Action)
    requires BaseInv(s) && Enabled(s, a) && !a.Restart? && !Disturbs(KS(s, a.key), a)
    ensures Next(s, a).keys.Keys == s.keys.Keys && Next(s, a).up == s.up
    ensures Total(Next(s, a), s.keys.Keys) < Total(s, s.keys.Keys)
  {
    var s', k := Next(s, a), a.key;
    assert WorkInv(s, k) && k in s.keys;
    forall x | x in s.keys.Keys - {k}
      ensures KS(s', x) == KS(s, x)
    {
      StepFrame(s, a, x);
    }
    StepFrame(s, a, k);
    StepCalms(k, KS(s, k), a, s.now);
    TotalSplit(s, s.keys.Keys, k);
    TotalSplit(s', s.keys.Keys, k);
    TotalSame(s, s', s.keys.Keys - {k});
  }

  // -------- undisturbed runs --------

  ghost predicate Undisturbed(s: State, run: seq<Action>)
    requires Legal(s, run)
    decreases |run|, 1
  {
    run == [] || UndisturbedFrom(s, run)
  }

  ghost predicate UndisturbedFrom(s: State, run: seq<Action>)
    requires run != [] && LegalFrom(s, run)
    decreases |run|, 0
  {
    !run[0].Restart? && !Disturbs(KS(s, run[0].key), run[0]) && Undisturbed(Next(s, run[0]), run[1..])
  }

  /** No undisturbed run is longer than the measure. */
  lemma {:induction false} UndisturbedIsShort(s: State, run: seq<Action>)
    requires BaseInv(s) && Legal(s, run) && Undisturbed(s, run)
    ensures |run| + Total(Exec(s, run), s.keys.Keys) <= Total(s, s.keys.Keys)
    ensures Exec(s, run).up == s.up
    decreases |run|
  {
    if run != [] {
      assert LegalFrom(s, run) && Exec(s, run) == ExecFrom(s, run) && UndisturbedFrom(s, run);
      StepKeepsBase(s, run[0]);
      StepLowersTotal(s, run[0]);
      UndisturbedIsShort(Next(s, run[0]), run[1..]);
    }
  }

  /** Users do nothing in it, and the process does not restart. */
  lemma {:induction false} UndisturbedIsQuiet(s: State, run: seq<Action>, made: iset<(Key, Spec)>)
    requires Legal(s, run) && Undisturbed(s, run)
    ensures NoRestart(run) && UsesOnly(run, made)
    decreases |run|
  {
    if run != [] {
      assert LegalFrom(s, run) && UndisturbedFrom(s, run);
      UndisturbedIsQuiet(Next(s, run[0]), run[1..], made);
      assert forall i :: 0 < i < |run| ==> run[i] == run[1..][i - 1];
    }
  }

  // -------- the end --------

  /** Nothing but a disturbance can happen. */
  ghost predicate Final(s: State) {
    forall a :: Enabled(s, a) && !a.Restart? ==> Disturbs(KS(s, a.key), a)
  }

  ghost predicate AtRest(ks: KeyState) {
    |ks.versions| == 1 && !ks.queued && ks.pc.Idle?
  }

  /** The key's next and only step is to kill the process. */
  predicate PanicDue(s: State, k: Key) {
    |KS(s, k).versions| == 1 && Enabled(s, Panic(k))
  }

  lemma StepRemains(s: State, k: Key)
    requires BaseInv(s) && s.up && !AtRest(KS(s, k)) && !PanicDue(s, k)
    ensures exists a :: Enabled(s, a) && !a.Restart? && !Disturbs(KS(s, a.key), a)
  {
    assert WorkInv(s, k);
    if |KS(s, k).versions| > 1 {
      assert Enabled(s, Deliver(k));
    } else {
      BusyHasStep(s, k);
    }
  }

  /** A run has come to its end exactly when every key is at rest, but for those about to kill the
      process. */
  lemma FinalIff(s: State)
    requires BaseInv(s) && s.up
    ensures Final(s) <==> forall k :: AtRest(KS(s, k)) || PanicDue(s, k)
  {
    if Final(s) {
      forall k
        ensures AtRest(KS(s, k)) || PanicDue(s, k)
      {
        if !AtRest(KS(s, k)) && !PanicDue(s, k) { StepRemains(s, k); }
      }
    }
    if forall k :: AtRest(KS(s, k)) || PanicDue(s, k) {
      forall a | Enabled(s, a) && !a.Restart?
        ensures Disturbs(KS(s, a.key), a)
      {
        assert AtRest(KS(s, a.key)) || PanicDue(s, a.key);
      }
    }
  }

  /** Every undisturbed run can be carried on to such an end. */
  lemma {:induction false} ReachEnd(s: State) returns (run: seq<Action>)
    requires BaseInv(s) && s.up
    ensures Legal(s, run) && Undisturbed(s, run) && Final(Exec(s, run))
    decreases Total(s, s.keys.Keys)
  {
    if Final(s) {
      run := [];
    } else {
      var a :| Enabled(s, a) && !a.Restart? && !Disturbs(KS(s, a.key), a);
      StepKeepsBase(s, a);
      StepLowersTotal(s, a);
      var rest := ReachEnd(Next(s, a));
      run := [a] + rest;
      assert run[0] == a && run[1..] == rest;
      assert LegalFrom(s, run) && UndisturbedFrom(s, run) && Exec(s, run) == ExecFrom(s, run);
    }
  }

  /** From any reachable state: no undisturbed run is longer than the measure, and it has come to its end
      exactly when every key is at rest or about to kill the process. */
  lemma ComesToRest(cluster: string, past: seq<Action>, run: seq<Action>)
    requires Legal(Init(cluster), past) && Exec(Init(cluster), past).up
    requires Legal(Exec(Init(cluster), past), run) && Undisturbed(Exec(Init(cluster), past), run)
    ensures
      var s := Exec(Init(cluster), past);
      |run| <= Total(s, s.keys.Keys)
    ensures
      var st := Exec(Exec(Init(cluster), past), run);
      Final(st) <==> forall k :: AtRest(KS(st, k)) || PanicDue(st, k)
  {
    var s := Exec(Init(cluster), past);
    ReachableBase(cluster, past);
    UndisturbedIsShort(s, run);
    RunKeepsBase(s, run);
    FinalIff(Exec(s, run));
  }

  /** And if no two names can ask for one connection, then at the end, unless a panic is due, the server
      has exactly the connections of the live resources. */
  lemma EndsExact(cluster: string, made: iset<(Key, Spec)>, past: seq<Action>, run: seq<Action>)
    requires Exclusive(made) && RunOf(cluster, made, past) && Fresh(SameConnection, Init(cluster), past)
    requires Exec(Init(cluster), past).up
    requires Legal(Exec(Init(cluster), past), run) && Undisturbed(Exec(Init(cluster), past), run)
    requires Final(Exec(Exec(Init(cluster), past), run))
    requires forall k :: !PanicDue(Exec(Exec(Init(cluster), past), run), k)
    ensures Settled(Exec(Exec(Init(cluster), past), run)) && Exact(Exec(Exec(Init(cluster), past), run))
  {
    var s := Exec(Init(cluster), past);
    var st := Exec(s, run);
    ComesToRest(cluster, past, run);
    UndisturbedIsQuiet(s, run, made);
    NoRestartIsMild(false, s, run);
    NoRestartIsFresh(SameConnection, s, run);
    ReachableClaims(cluster, past, made);
    RunKeepsClaims(s, run, made);
    ClaimedStayUp(st, made);
    Reachable(SameConnection, cluster, past);
    RunKeepsInv(SameConnection, s, run);
    InvHasNoOrphans(SameConnection, st);
    SettledAndSafeIsExact(st);
  }
}
