/** Work on a resource comes to an end: the steps the operator spends on a resource that is being
    deleted, or that is live and not yet connected, are bounded by what disturbs it, and while there
    is work a step is always possible. */
module Liveness {
  import opened AppConnections
  import opened KeyInvariants
  import opened Protocol
  import opened Runs
  import opened Safety
  import opened WorkInvariants

  // -------- the measure --------

  /** How far the reconciler is from removing the finalizer, or from a connect that counts. A snapshot
      that is no longer current has a whole further pass before it. */
  function Phase(ks: KeyState): nat {
    match ks.pc
    case Idle => if ks.queued then 5 else 0
    case Dequeued => 4
    case AtAdd(o) => if Matches(ks, o) then 3 else 6
    case AtConnect(o) => if Alive(Current(ks)) && Current(ks).obj.uid == o.uid then 1 else 6
    case AtDisconnect(o) => if Matches(ks, o) then 3 else 8
    case AtDisconnectApp(o, _) => if Matches(ks, o) then 2 else 7
    case AtRemove(o) => if Matches(ks, o) then 1 else 6
  }

  /** The undelivered events that pass the filters. */
  function Wakes(v: seq<Version>): nat {
    if |v| < 2 then 0 else (if Passes(v[0], v[1]) then 1 else 0) + Wakes(v[1..])
  }

  /** Each event that passes costs at most one pass of the queue, each other one its delivery. */
  function Measure(ks: KeyState): nat {
    6 * Wakes(ks.versions) + |ks.versions| + Phase(ks)
  }

  lemma {:induction false} WakesPush(v: seq<Version>, w: Version)
    requires |v| > 0
    ensures Wakes(v + [w]) == Wakes(v) + if Passes(v[|v| - 1], w) then 1 else 0
    decreases |v|
  {
    if |v| == 1 {
      assert (v + [w])[1..] == [w];
    } else {
      assert (v + [w])[1..] == v[1..] + [w];
      WakesPush(v[1..], w);
    }
  }

  /** Going back by some versions costs at most as many events. */
  lemma {:induction false} WakesBack(h: seq<Version>, at: nat, p: nat)
    requires at <= p < |h|
    ensures Wakes(h[p..]) <= Wakes(h[at..]) <= Wakes(h[p..]) + (p - at)
    decreases p - at
  {
    if at < p {
      assert h[at..][1..] == h[at + 1..];
      WakesBack(h, at + 1, p);
    }
  }

  // -------- what counts as a disturbance --------

  predicate Touches(a: Action, k: Key) {
    !a.Restart? && a.key == k
  }

  /** A write to the resource by somebody else, a failed call, a read of a cache that has not
      caught up, or the death of the process. A conflict is not a failure of its own: it only
      follows from an earlier write or stale read. */
  predicate Disturbs(ks: KeyState, a: Action) {
    match a
    case Create(_, _, _) => true
    case UserDelete(_) => true
    case UserEdit(_, _) => true
    case StatusWrite(_, _) => true
    case Deliver(_) => false
    case Dequeue(_) => false
    case Get(_, ok) => !ok || |ks.versions| > 1
    case Add(_, out) => out.ErrDone? || (out.ErrLost? && ks.pc.AtAdd? && Matches(ks, ks.pc.snap))
    case Connect(_, out, _) => !out.Ok?
    case Disconnect(_, out) => !out.Ok?
    case ListApps(_, ok, _) => !ok
    case DisconnectApp(_, out) => !out.Ok?
    case Remove(_, out) => out.ErrDone? || (out.ErrLost? && ks.pc.AtRemove? && Matches(ks, ks.pc.snap))
    case Panic(_) => true
    case Restart(_) => true
  }

  predicate Needy(v: Version) {
    Terminating(v) || Alive(v)
  }

  /** The connect that a live resource waits for. */
  predicate Counts(ks: KeyState, a: Action) {
    a.Connect? && a.out.Ok? && ks.pc.AtConnect? && Current(ks).Present? && Current(ks).obj.uid == ks.pc.snap.uid
  }

  lemma WakesStep(ks: KeyState, a: Action, now: nat)
    requires !a.Restart? && KeyEnabled(ks, a)
    ensures
      var v, v' := ks.versions, KeyStep(ks, a, now).versions;
      if a.Deliver? then Wakes(v') == Wakes(v) - (if Passes(v[0], v[1]) then 1 else 0)
      else if |v'| == |v| then Wakes(v') == Wakes(v)
      else Wakes(v') == Wakes(v) + if Passes(Current(ks), Current(KeyStep(ks, a, now))) then 1 else 0
  {
    VersionsStep(ks, a, now);
    WakesPush(ks.versions, Current(KeyStep(ks, a, now)));
  }

  /** The step leaves work to be done, and less of it. */
  ghost predicate Closer(ks: KeyState, a: Action, now: nat)
    requires !a.Restart? && KeyEnabled(ks, a)
  {
    var ks' := KeyStep(ks, a, now);
    Terminating(Current(ks')) || (Alive(Current(ks')) && !Counts(ks, a)) ==> Measure(ks') < Measure(ks)
  }

  lemma DeliverDecreases(k: Key, ks: KeyState, now: nat)
    requires KeyInv(k, ks, now) && KeyEnabled(ks, Deliver(k))
    ensures Closer(ks, Deliver(k), now)
  {
  }

  lemma ReadDecreases(k: Key, ks: KeyState, a: Action, now: nat)
    requires KeyInv(k, ks, now) && (a.Dequeue? || a.Get?) && a.key == k && KeyEnabled(ks, a)
    requires Needy(Current(ks)) && !Disturbs(ks, a)
    ensures Closer(ks, a, now)
  {
  }

  lemma UpdateDecreases(k: Key, ks: KeyState, a: Action, now: nat)
    requires KeyInv(k, ks, now) && (a.Add? || a.Remove?) && a.key == k && KeyEnabled(ks, a)
    requires Needy(Current(ks)) && !Disturbs(ks, a)
    ensures Closer(ks, a, now)
  {
    WakesStep(ks, a, now);
    if !a.out.ErrLost? { MatchIsCurrent(ks, ks.pc.snap); }
  }

  lemma RpcDecreases(k: Key, ks: KeyState, a: Action, now: nat)
    requires KeyInv(k, ks, now) && (a.Connect? || a.Disconnect? || a.ListApps? || a.DisconnectApp?)
    requires a.key == k && KeyEnabled(ks, a) && Needy(Current(ks)) && !Disturbs(ks, a)
    ensures Closer(ks, a, now)
  {
  }

  /** While the resource needs work an undisturbed step brings it closer to the end. */
  lemma ProgressDecreases(k: Key, ks: KeyState, a: Action, now: nat)
    requires KeyInv(k, ks, now) && !a.Restart? && a.key == k && KeyEnabled(ks, a)
    requires Needy(Current(ks)) && !Disturbs(ks, a)
    ensures Measure(ks) > 0
    ensures
      var ks' := KeyStep(ks, a, now);
      Terminating(Current(ks')) || (Alive(Current(ks')) && !Counts(ks, a)) ==> Measure(ks') < Measure(ks)
  {
    assert Closer(ks, a, now) by {
      if a.Deliver? {
        DeliverDecreases(k, ks, now);
      } else if a.Dequeue? || a.Get? {
        ReadDecreases(k, ks, a, now);
      } else if a.Add? || a.Remove? {
        UpdateDecreases(k, ks, a, now);
      } else {
        RpcDecreases(k, ks, a, now);
      }
    }
  }

  const COST: nat := 16

  /** A disturbance sets the resource back by a bounded amount: a write by others, */
  lemma WriteIsBounded(ks: KeyState, a: Action, now: nat)
    requires (a.Create? || a.UserDelete? || a.UserEdit? || a.StatusWrite?) && KeyEnabled(ks, a)
    ensures Measure(KeyStep(ks, a, now)) <= Measure(ks) + COST
  {
    WakesStep(ks, a, now);
    VersionsStep(ks, a, now);
  }

  /** or any step of the operator itself. */
  lemma OwnStepIsBounded(k: Key, ks: KeyState, a: Action, now: nat)
    requires KeyInv(k, ks, now) && ByProcess(a) && a.key == k && KeyEnabled(ks, a)
    ensures Measure(KeyStep(ks, a, now)) <= Measure(ks) + COST
  {
    WakesStep(ks, a, now);
    if (a.Add? || a.Remove?) && !a.out.ErrLost? {
      MatchIsCurrent(ks, ks.pc.snap);
    }
  }

  lemma DisturbanceIsBounded(k: Key, ks: KeyState, a: Action, now: nat)
    requires KeyInv(k, ks, now) && !a.Restart? && a.key == k && KeyEnabled(ks, a)
    ensures Measure(KeyStep(ks, a, now)) <= Measure(ks) + COST
  {
    if ByProcess(a) { OwnStepIsBounded(k, ks, a, now); } else { WriteIsBounded(ks, a, now); }
  }

  /** How many versions a restart goes back. */
  function Rewound(past: seq<Version>, at: nat): nat {
    if at < |past| then |past| - at else 0
  }

  /** And a restart by an amount bounded by how far it goes back. */
  lemma RestartIsBounded(past: seq<Version>, ks: KeyState, at: nat)
    requires |ks.versions| > 0 && at < |past + ks.versions|
    ensures Measure(Restarted(past + ks.versions, at)) <= Measure(ks) + COST * (1 + Rewound(past, at))
  {
    var h, p := past + ks.versions, |past|;
    assert h[p..] == ks.versions;
    if at <= p { WakesBack(h, at, p); } else { WakesBack(h, p, at); }
  }

  // -------- counting over a run --------

  /** The resource needs work before every action of the run. */
  ghost predicate Throughout(s: State, run: seq<Action>, k: Key)
    requires Legal(s, run)
    decreases |run|
  {
    run == [] || (assert LegalFrom(s, run); NeedsWork(s, k) && Throughout(Next(s, run[0]), run[1..], k))
  }

  /** The undisturbed steps of a run on one resource. */
  function Progress(s: State, run: seq<Action>, k: Key): nat
    requires Legal(s, run)
    decreases |run|
  {
    if run == [] then 0
    else
      assert LegalFrom(s, run);
      (if Touches(run[0], k) && !Disturbs(KS(s, k), run[0]) then 1 else 0)
      + Progress(Next(s, run[0]), run[1..], k)
  }

  /** A restart counts for as many versions as it goes back, and one more. */
  function Setback(s: State, a: Action, k: Key): nat
    requires Enabled(s, a)
  {
    if a.Restart? then 1 + (if k in s.keys then Rewound(Past(s, k), a.at[k]) else 0)
    else if a.key == k && Disturbs(KS(s, k), a) then 1
    else 0
  }

  /** What disturbs the resource during a run. */
  function Disturbances(s: State, run: seq<Action>, k: Key): nat
    requires Legal(s, run)
    decreases |run|
  {
    if run == [] then 0
    else
      assert LegalFrom(s, run);
      Setback(s, run[0], k) + Disturbances(Next(s, run[0]), run[1..], k)
  }

  /** One step of the run. */
  lemma WorkStepBound(s: State, a: Action, k: Key)
    requires BaseInv(s) && Enabled(s, a) && NeedsWork(s, k)
    ensures
      var gained := if Touches(a, k) && !Disturbs(KS(s, k), a) then 1 else 0;
      && gained <= Measure(KS(s, k))
      && (NeedsWork(Next(s, a), k) ==>
            gained + Measure(KS(Next(s, a), k)) <= Measure(KS(s, k)) + COST * Setback(s, a, k))
  {
    assert WorkInv(s, k);
    if a.Restart? {
      RestartFrame(s, a, k);
      if k in s.keys { RestartIsBounded(Past(s, k), KS(s, k), a.at[k]); }
    } else {
      StepFrame(s, a, k);
      if a.key == k {
        DisturbanceIsBounded(k, KS(s, k), a, s.now);
        if !Disturbs(KS(s, k), a) {
          ProgressDecreases(k, KS(s, k), a, s.now);
          if Counts(KS(s, k), a) { CountedIsConnected(s, a, k); }
        }
      }
    }
  }

  lemma CountedIsConnected(s: State, a: Action, k: Key)
    requires Enabled(s, a) && !a.Restart? && a.key == k && Counts(KS(s, k), a)
    ensures Connected(Next(s, a), k) && Current(KS(Next(s, a), k)) == Current(KS(s, k))
  {
  }

  /** For as long as a resource needs work, the number of undisturbed steps spent on it is bounded by
      its measure at the start plus a constant for each disturbance. With finitely many disturbances
      its deletion, or its first connect, therefore comes, however the steps of other resources
      interleave. */
  lemma {:induction false} WorkTerminates(s: State, run: seq<Action>, k: Key)
    requires BaseInv(s) && Legal(s, run) && Throughout(s, run, k)
    ensures Progress(s, run, k) <= Measure(KS(s, k)) + COST * Disturbances(s, run, k)
    decreases |run|
  {
    if run != [] {
      var a, s' := run[0], Next(s, run[0]);
      assert LegalFrom(s, run);
      StepKeepsBase(s, a);
      WorkStepBound(s, a, k);
      if NeedsWork(s', k) {
        WorkTerminates(s', run[1..], k);
      } else {
        assert run[1..] == [];
      }
    }
  }

  /** Undisturbed, a resource that needs work is done with within `Measure` steps on it. */
  lemma WorkCompletes(cluster: string, past: seq<Action>, run: seq<Action>, k: Key)
    requires Legal(Init(cluster), past) && Legal(Exec(Init(cluster), past), run)
    ensures
      var s := Exec(Init(cluster), past);
      Disturbances(s, run, k) == 0 && Progress(s, run, k) > Measure(KS(s, k)) ==> !Throughout(s, run, k)
  {
    var s := Exec(Init(cluster), past);
    ReachableBase(cluster, past);
    if Throughout(s, run, k) {
      WorkTerminates(s, run, k);
    }
  }

  // -------- a step is always possible --------

  /** The step the operator or the cache takes next, given what the server would answer. */
  function NextStep(k: Key, ks: KeyState, id: string, listing: seq<AppInfo>): Action {
    if |ks.versions| > 1 then Deliver(k)
    else
      match ks.pc
      case Idle => Dequeue(k)
      case Dequeued => Get(k, true)
      case AtAdd(o) => Add(k, if Matches(ks, o) then Ok else ErrLost)
      case AtConnect(_) => Connect(k, Ok, id)
      case AtDisconnect(o) => if o.spec.App? then ListApps(k, true, listing) else Disconnect(k, Ok)
      case AtDisconnectApp(_, _) => DisconnectApp(k, Ok)
      case AtRemove(o) => Remove(k, if Matches(ks, o) then Ok else ErrLost)
  }

  /** An event is undelivered, or the key is queued or in work. */
  predicate Busy(ks: KeyState) {
    |ks.versions| > 1 || (|ks.versions| == 1 && (ks.queued || InFlight(ks.pc)))
  }

  lemma NextStepEnabled(k: Key, ks: KeyState, id: string, listing: seq<AppInfo>)
    requires Busy(ks) && !(ks.pc.AtConnect? && !Sendable(ks.pc.snap.spec))
    ensures
      var a := NextStep(k, ks, id, listing);
      KeyEnabled(ks, a) && Touches(a, k) && !Disturbs(ks, a) && ByProcess(a)
  {
  }

  /** While the process runs there is always an undisturbed step on a busy key, unless it is about to
      kill the process by the missing selector. */
  lemma BusyHasStep(s: State, k: Key)
    requires BaseInv(s) && Busy(KS(s, k)) && s.up
    ensures
      || Enabled(s, Panic(k))
      || exists a :: Enabled(s, a) && Touches(a, k) && !Disturbs(KS(s, k), a)
  {
    var ks := KS(s, k);
    SomeListing(s.remote.apps);
    var listing :| IsListing(listing, s.remote.apps);
    var id := "";
    if ks.pc.AtConnect? && ks.pc.snap.spec.App? {
      id := SomeAssignable(s.remote.apps, KeyOf(ks.pc.snap.spec.app));
    }
    if !(ks.pc.AtConnect? && !Sendable(ks.pc.snap.spec)) {
      NextStepEnabled(k, ks, id, listing);
      assert Enabled(s, NextStep(k, ks, id, listing));
    }
  }

  /** In particular while a resource needs work. */
  lemma WorkNeverStuck(s: State, k: Key)
    requires BaseInv(s) && NeedsWork(s, k) && s.up
    ensures
      || Enabled(s, Panic(k))
      || exists a :: Enabled(s, a) && Touches(a, k) && !Disturbs(KS(s, k), a)
  {
    assert WorkInv(s, k);
    NeededIsScheduled(s, k);
    BusyHasStep(s, k);
  }

  /** A dead process can always be started again, with caches no older than they were. */
  lemma DeadCanRestart(s: State) returns (a: Action)
    requires BaseInv(s)
    ensures a.Restart? && Enabled(s, a) && FreshStep(Forward, s, a) && Next(s, a).up
  {
    forall k | k in s.keys
      ensures |Past(s, k)| < |History(s, k)|
    {
      assert WorkInv(s, k);
    }
    a := Restart(map k | k in s.keys :: |Past(s, k)|);
  }
}
