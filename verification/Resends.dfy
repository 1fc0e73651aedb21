/** When a connect is sent again for a resource that is connected: exactly when the resource was
    created anew under its name while the reconcile that connected it was under way. */
module Resends {
  import opened KeyInvariants
  import opened Protocol
  import opened Runs
  import opened Scenarios
  import opened WorkInvariants

  // -------- a key at rest --------

  /** Neither this resource is deleted nor the process restarted. */
  predicate Steady(run: seq<Action>, k: Key) {
    forall i :: 0 <= i < |run| ==> !run[i].Restart? && run[i] != UserDelete(k)
  }

  predicate SendsConnect(run: seq<Action>, k: Key) {
    exists i :: 0 <= i < |run| && run[i].Connect? && run[i].key == k
  }

  /** From cache to server the key holds one live incarnation, and nobody is about to look at it. */
  ghost predicate Quiet(ks: KeyState, u: nat) {
    && |ks.versions| > 0 && !ks.queued && ks.pc.Idle?
    && forall i :: 0 <= i < |ks.versions| ==> Alive(ks.versions[i]) && ks.versions[i].obj.uid == u
  }

  /** Status writes and edits of a live resource pass no event filter. */
  lemma QuietStep(k: Key, ks: KeyState, a: Action, now: nat, u: nat)
    requires Quiet(ks, u) && !a.Restart? && a.key == k && KeyEnabled(ks, a) && a != UserDelete(k)
    ensures !a.Connect? && Quiet(KeyStep(ks, a, now), u)
  {
    assert Alive(Current(ks));
  }

  lemma {:induction false} QuietRun(s: State, run: seq<Action>, k: Key, u: nat)
    requires Legal(s, run) && Steady(run, k) && Quiet(KS(s, k), u)
    ensures !SendsConnect(run, k)
    decreases |run|
  {
    if run != [] {
      var a := run[0];
      assert !a.Restart? && a != UserDelete(k);
      StepFrame(s, a, k);
      if a.key == k { QuietStep(k, KS(s, k), a, s.now, u); }
      assert forall i :: 0 < i < |run| ==> run[i] == run[1..][i - 1];
      QuietRun(Next(s, a), run[1..], k, u);
    }
  }

  /** A queued key has its connect sent again. */
  lemma QueuedResends(s: State, k: Key) returns (run: seq<Action>)
    requires s.up && |KS(s, k).versions| > 0 && KS(s, k).queued && KS(s, k).pc.Idle? && Connects(Current(KS(s, k)))
    ensures Legal(s, run) && Steady(run, k) && SendsConnect(run, k)
  {
    var deliveries, mid := CatchUp(s, k);
    var sending, st, id := SendConnect(mid, k);
    Append(Process, s, deliveries, mid, sending, st);
    run := deliveries + sending;
    assert run[|run| - 1] == Connect(k, Ok, id);
    assert forall i :: 0 <= i < |run| ==> Within(Process, run[i]);
  }

  /** The incarnation is stored and not being deleted. */
  predicate LiveStill(ks: KeyState, u: nat) {
    Alive(Current(ks)) && Current(ks).obj.uid == u
  }

  /** A connect is about to succeed for the incarnation that is stored and live. */
  ghost predicate ConnectsLive(s: State, k: Key, id: string) {
    Enabled(s, Connect(k, Ok, id)) && LiveStill(KS(s, k), KS(s, k).pc.snap.uid)
  }

  /** What it leaves. */
  lemma AfterConnect(k: Key, ks: KeyState, now: nat, id: string)
    requires KeyInv(k, ks, now) && KeyEnabled(ks, Connect(k, Ok, id)) && LiveStill(ks, ks.pc.snap.uid)
    ensures
      var ks' := KeyStep(ks, Connect(k, Ok, id), now);
      && |ks'.versions| > 0 && ks'.pc.Idle? && Connects(Current(ks'))
      && (!ks'.queued ==> Quiet(ks', Current(ks').obj.uid))
  {
    var v, n := ks.versions, |ks.versions| - 1;
    forall i | 0 <= i <= n
      ensures Alive(v[i]) && v[i].obj.uid == v[n].obj.uid
    {
      assert v[i].Present?;
      if i < n { assert Later(v[i].obj, v[n].obj); }
    }
  }

  ghost predicate Resends(s: State, k: Key) {
    exists run :: Legal(s, run) && Steady(run, k) && SendsConnect(run, k)
  }

  /** After a successful connect of a live resource another one can follow exactly when the key is in
      the queue. */
  lemma ResendsIffQueued(s: State, k: Key, id: string)
    requires BaseInv(s) && ConnectsLive(s, k, id)
    ensures Resends(Next(s, Connect(k, Ok, id)), k) <==> KS(s, k).queued
  {
    var s' := Next(s, Connect(k, Ok, id));
    assert WorkInv(s, k);
    StepFrame(s, Connect(k, Ok, id), k);
    AfterConnect(k, KS(s, k), s.now, id);
    if KS(s', k).queued {
      var run := QueuedResends(s', k);
    } else {
      forall run | Legal(s', run) && Steady(run, k)
        ensures !SendsConnect(run, k)
      {
        QuietRun(s', run, k, Current(KS(s', k)).obj.uid);
      }
    }
  }

  // -------- how a key comes to be queued while it is reconciled --------

  /** Between taking the key from the queue and the end of that reconcile. */
  predicate OneReconcile(run: seq<Action>, k: Key) {
    forall i :: 0 <= i < |run| ==> !run[i].Restart? && run[i] != Dequeue(k)
  }

  /** The action delivers the creation of the resource. */
  predicate Creation(ks: KeyState, a: Action) {
    a.Deliver? && |ks.versions| > 1 && ks.versions[0].Absent? && ks.versions[1].Present?
  }

  ghost predicate CreationDelivered(s: State, run: seq<Action>, k: Key)
    requires Legal(s, run)
    decreases |run|
  {
    if run == [] then false
    else
      assert LegalFrom(s, run);
      (run[0] == Deliver(k) && Creation(KS(s, k), run[0])) || CreationDelivered(Next(s, run[0]), run[1..], k)
  }

  /** If no creation has been delivered since the reconcile began, the queue flag means that what the
      reconcile works on is no longer live. */
  ghost predicate QueueTells(ks: KeyState, created: bool) {
    match ks.pc
    case Dequeued => ks.queued && !created ==> !Alive(Cached(ks))
    case AtAdd(o) => !created ==> SameOrGone(ks, o.uid) && (ks.queued ==> !LiveStill(ks, o.uid))
    case AtConnect(o) => !created ==> SameOrGone(ks, o.uid) && (ks.queued ==> !LiveStill(ks, o.uid))
    case _ => true
  }

  predicate SameOrGone(ks: KeyState, u: nat) {
    Cached(ks).Present? ==> Cached(ks).obj.uid == u
  }

  lemma TellsDeliver(k: Key, ks: KeyState, a: Action, now: nat, created: bool)
    requires KeyInv(k, ks, now) && a == Deliver(k) && KeyEnabled(ks, a) && QueueTells(ks, created)
    ensures QueueTells(KeyStep(ks, a, now), created || Creation(ks, a))
  {
  }

  lemma TellsRead(k: Key, ks: KeyState, a: Action, now: nat, created: bool)
    requires KeyInv(k, ks, now) && a.Get? && a.key == k && KeyEnabled(ks, a) && QueueTells(ks, created)
    ensures QueueTells(KeyStep(ks, a, now), created)
  {
  }

  lemma TellsWrite(k: Key, ks: KeyState, a: Action, now: nat, created: bool)
    requires KeyInv(k, ks, now) && !a.Restart? && a.key == k && KeyEnabled(ks, a) && QueueTells(ks, created)
    requires a.Create? || a.UserDelete? || a.UserEdit? || a.StatusWrite?
    ensures QueueTells(KeyStep(ks, a, now), created)
  {
  }

  lemma TellsUpdate(k: Key, ks: KeyState, a: Action, now: nat, created: bool)
    requires KeyInv(k, ks, now) && !a.Restart? && a.key == k && KeyEnabled(ks, a) && QueueTells(ks, created)
    requires a.Add? || a.Remove?
    ensures QueueTells(KeyStep(ks, a, now), created)
  {
  }

  lemma TellsStep(k: Key, ks: KeyState, a: Action, now: nat, created: bool)
    requires KeyInv(k, ks, now) && !a.Restart? && a != Dequeue(k) && a.key == k && KeyEnabled(ks, a)
    requires QueueTells(ks, created)
    ensures QueueTells(KeyStep(ks, a, now), created || Creation(ks, a))
  {
    if a.Deliver? {
      TellsDeliver(k, ks, a, now, created);
    } else if a.Get? {
      TellsRead(k, ks, a, now, created);
    } else if a.Create? || a.UserDelete? || a.UserEdit? || a.StatusWrite? {
      TellsWrite(k, ks, a, now, created);
    } else if a.Add? || a.Remove? {
      TellsUpdate(k, ks, a, now, created);
    }
  }

  lemma {:induction false} TellsRun(s: State, run: seq<Action>, k: Key, created: bool)
    requires BaseInv(s) && Legal(s, run) && OneReconcile(run, k) && QueueTells(KS(s, k), created)
    ensures QueueTells(KS(Exec(s, run), k), created || CreationDelivered(s, run, k))
    decreases |run|
  {
    if run != [] {
      var a := run[0];
      assert LegalFrom(s, run) && Exec(s, run) == ExecFrom(s, run) && WorkInv(s, k);
      assert !a.Restart? && a != Dequeue(k);
      StepFrame(s, a, k);
      if a.key == k { TellsStep(k, KS(s, k), a, s.now, created); }
      StepKeepsBase(s, a);
      assert forall i :: 0 <= i < |run[1..]| ==> run[1..][i] == run[i + 1];
      TellsRun(Next(s, a), run[1..], k, created || (a.key == k && Creation(KS(s, k), a)));
    }
  }

  /** Only taking the key from the queue clears the flag. */
  lemma {:induction false} QueuedStays(s: State, run: seq<Action>, k: Key)
    requires Legal(s, run) && OneReconcile(run, k) && (KS(s, k).queued || CreationDelivered(s, run, k))
    ensures KS(Exec(s, run), k).queued
    decreases |run|
  {
    if run != [] {
      var a := run[0];
      assert LegalFrom(s, run) && Exec(s, run) == ExecFrom(s, run);
      assert !a.Restart? && a != Dequeue(k);
      StepFrame(s, a, k);
      assert forall i :: 0 <= i < |run[1..]| ==> run[1..][i] == run[i + 1];
      QueuedStays(Next(s, a), run[1..], k);
    }
  }

  /** When a reconcile that began in state `s` is about to connect the live resource that is stored, its
      key has been queued again if and only if a creation was delivered meanwhile. Status writes,
      finalizer writes, deletions and other resources make no difference. */
  lemma QueuedIffCreated(s: State, k: Key, run: seq<Action>, id: string)
    requires BaseInv(s) && Enabled(s, Dequeue(k))
    requires Legal(Next(s, Dequeue(k)), run) && OneReconcile(run, k)
    requires ConnectsLive(Exec(Next(s, Dequeue(k)), run), k, id)
    ensures
      KS(Exec(Next(s, Dequeue(k)), run), k).queued <==> CreationDelivered(Next(s, Dequeue(k)), run, k)
  {
    var s1 := Next(s, Dequeue(k));
    StepFrame(s, Dequeue(k), k);
    StepKeepsBase(s, Dequeue(k));
    TellsRun(s1, run, k, false);
    if CreationDelivered(s1, run, k) {
      QueuedStays(s1, run, k);
    }
  }

  /** In every reachable state: when the reconcile of the live resource that is stored returns nil, another
      connect can follow without deletion and restart if and only if, since the key was taken from the
      queue, the cache learned that the resource was created. Restarts before that may list from
      anywhere. */
  lemma ResendsIffCreated(cluster: string, past: seq<Action>, k: Key, run: seq<Action>, id: string)
    requires Legal(Init(cluster), past) && Enabled(Exec(Init(cluster), past), Dequeue(k))
    requires
      var s := Next(Exec(Init(cluster), past), Dequeue(k));
      Legal(s, run) && OneReconcile(run, k) && ConnectsLive(Exec(s, run), k, id)
    ensures
      var s := Next(Exec(Init(cluster), past), Dequeue(k));
      Resends(Next(Exec(s, run), Connect(k, Ok, id)), k) <==> CreationDelivered(s, run, k)
  {
    var s0 := Exec(Init(cluster), past);
    var s := Next(s0, Dequeue(k));
    ReachableBase(cluster, past);
    QueuedIffCreated(s0, k, run, id);
    StepKeepsBase(s0, Dequeue(k));
    RunKeepsBase(s, run);
    ResendsIffQueued(Exec(s, run), k, id);
  }

  // -------- it happens --------

  /** A resource is taken from the queue and replaced before the cache is read. */
  lemma ReplacedInFlight(s: State, k: Key, spec: Spec) returns (run: seq<Action>, st: State)
    requires s.up && KS(s, k) == FRESH_KEY && KindOf(spec) == k.kind
    ensures Leads(Users(iset{(k, spec)}), s, run, st) && OnlyKey(s, st, k) && st.now == s.now + 5
    ensures KS(st, k) == KeyState([Present(Born(spec, s.now)), Absent, Present(Born(spec, s.now + 4))], false, Dequeued)
  {
    var o1, scope := Born(spec, s.now), Users(iset{(k, spec)});
    run, st := Then(scope, s, [], s, Create(k, spec, {}));
    run, st := Then(scope, s, run, st, Deliver(k));
    assert KS(st, k) == KeyState([Present(o1)], true, Idle);
    run, st := Then(scope, s, run, st, Dequeue(k));
    run, st := Then(scope, s, run, st, UserDelete(k));
    assert KS(st, k) == KeyState([Present(o1), Absent], false, Dequeued);
    run, st := Then(scope, s, run, st, Create(k, spec, {}));
  }

  /** The creation then arrives before the reconcile reads the cache, so the reconcile connects the new
      incarnation with its key in the queue. */
  lemma QueuedAtReturn(cluster: string, k: Key, spec: Spec) returns (past: seq<Action>, st: State)
    requires KindOf(spec) == k.kind && Sendable(spec)
    ensures Leads(Users(iset{(k, spec)}), Init(cluster), past, st) && st.up
    ensures KS(st, k).pc.AtConnect? && Sendable(KS(st, k).pc.snap.spec)
    ensures LiveStill(KS(st, k), KS(st, k).pc.snap.uid) && KS(st, k).queued
  {
    var s, scope := Init(cluster), Users(iset{(k, spec)});
    past, st := ReplacedInFlight(s, k, spec);
    var o := Born(spec, 4);
    var deliveries, mid := DeliverTo(st, k, 2);
    assert WakesBy(KS(st, k).versions, 2) by { assert Passes(KS(st, k).versions[1], KS(st, k).versions[2]); }
    assert KS(mid, k) == KeyState([Present(o)], true, Dequeued);
    Widen(scope, st, deliveries, mid);
    Append(scope, s, past, st, deliveries, mid);
    past, st := Then(scope, s, past + deliveries, mid, Get(k, true));
    past, st := Then(scope, s, past, st, Add(k, Ok));
  }
}
