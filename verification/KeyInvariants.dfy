/** The invariants of a single resource key: what the versions between cache and API server look
    like, how the reconciler's snapshot relates to them, and why no work is lost. */
module KeyInvariants {
  import opened Protocol

  // -------- the chain of versions --------

  /** `b` is of the same incarnation as `a` and follows it: it has the same spec, once deletion has begun
      only fewer finalizers, and until then it does not lose the operator's. */
  ghost predicate Follows(a: Object, b: Object) {
    && b.spec == a.spec
    && (a.deleting ==> b.deleting && b.finalizers <= a.finalizers)
    && (!b.deleting && Awi in a.finalizers ==> Awi in b.finalizers)
  }

  /** `b` is a later version of the same key: it follows `a`, or is of a younger incarnation. */
  ghost predicate Later(a: Object, b: Object) {
    a.rv < b.rv && a.uid <= b.uid && (a.uid == b.uid ==> Follows(a, b))
  }

  /** The object has the operator's finalizer before the transition and not after it. */
  ghost predicate Drops(v: Version, w: Version) {
    && v.Present? && Awi in v.obj.finalizers
    && !(w.Present? && w.obj.uid == v.obj.uid && Awi in w.obj.finalizers)
  }

  ghost predicate Known(k: Key, o: Object, now: nat) {
    o.uid <= o.rv < now && KindOf(o.spec) == k.kind
  }

  /** A new incarnation starts live, and only after the previous one is gone. */
  ghost predicate Succeeds(v: Version, o: Object) {
    if v.Absent? then !o.deleting && o.uid == o.rv else v.obj.uid == o.uid
  }

  ghost predicate Chain(k: Key, v: seq<Version>, now: nat) {
    && |v| > 0
    && (forall i :: 0 <= i < |v| && v[i].Present? ==> Known(k, v[i].obj, now))
    && (forall i, j :: 0 <= i < j < |v| && v[i].Present? && v[j].Present? ==> Later(v[i].obj, v[j].obj))
    && (forall i :: 0 < i < |v| && v[i].Present? ==> Succeeds(v[i - 1], v[i].obj))
  }

  // -------- the reconciler --------

  /** The snapshot is the cached version or an older one. */
  ghost predicate Observed(v: seq<Version>, o: Object) {
    forall i :: 0 <= i < |v| && v[i].Present? ==> (i == 0 && v[i].obj == o) || Later(o, v[i].obj)
  }

  /** Nothing between cache and server is of an older incarnation than the snapshot; what is of the
      snapshot's own has its specification, comes before any gap, and if stored live has the finalizer. */
  ghost predicate NoneOlder(v: seq<Version>, o: Object) {
    && (forall i :: 0 <= i < |v| && v[i].Present? ==>
          o.uid <= v[i].obj.uid && (o.uid == v[i].obj.uid ==> o.spec == v[i].obj.spec))
    && (forall i, j :: 0 <= i < j < |v| && v[i].Absent? && v[j].Present? ==> o.uid < v[j].obj.uid)
    && (|v| > 0 && Alive(v[|v| - 1]) && v[|v| - 1].obj.uid == o.uid ==> Awi in v[|v| - 1].obj.finalizers)
  }

  ghost predicate SnapOK(k: Key, ks: KeyState, now: nat) {
    match ks.pc
    case Idle => true
    case Dequeued => true
    case AtAdd(o) => Known(k, o, now) && Observed(ks.versions, o) && !o.deleting
    case AtConnect(o) => Known(k, o, now) && !o.deleting && Awi in o.finalizers && NoneOlder(ks.versions, o)
    case AtDisconnect(o) => Known(k, o, now) && Observed(ks.versions, o) && o.deleting && Awi in o.finalizers
    case AtDisconnectApp(o, _) =>
      Known(k, o, now) && Observed(ks.versions, o) && o.deleting && Awi in o.finalizers && o.spec.App?
    case AtRemove(o) => Known(k, o, now) && Observed(ks.versions, o) && o.deleting && Awi in o.finalizers
  }

  /** When the cache shows the deletion of the current object, somebody is on it. */
  ghost predicate DeletionCovered(ks: KeyState) {
    && Terminating(Current(ks))
    && Cached(ks).Present? && Cached(ks).obj.uid == Current(ks).obj.uid && Cached(ks).obj.deleting
    ==> ks.queued || ks.pc.Dequeued? || Removing(ks.pc)
  }

  ghost predicate KeyInv(k: Key, ks: KeyState, now: nat) {
    && Chain(k, ks.versions, now)
    && SnapOK(k, ks, now)
    && DeletionCovered(ks)
  }

  // -------- chains grow at the server and shrink at the cache --------

  /** What a write may put after the current version. */
  ghost predicate Extends(k: Key, v: seq<Version>, w: Version, now: nat)
    requires |v| > 0
  {
    var cur := v[|v| - 1];
    && (w.Present? ==> w.obj.rv == now && w.obj.uid <= now && KindOf(w.obj.spec) == k.kind)
    && (w.Present? && cur.Absent? ==> w.obj.uid == now && !w.obj.deleting)
    && (w.Present? && cur.Present? ==> w.obj.uid == cur.obj.uid && Follows(cur.obj, w.obj))
  }

  lemma PushChain(k: Key, v: seq<Version>, w: Version, now: nat)
    requires Chain(k, v, now) && Extends(k, v, w, now)
    ensures Chain(k, v + [w], now + 1)
  {
  }

  lemma ShrinkChain(k: Key, v: seq<Version>, at: nat, now: nat)
    requires Chain(k, v, now) && at < |v|
    ensures Chain(k, v[at..], now)
  {
  }

  /** A chain stays one as time passes. */
  lemma AgeChain(k: Key, v: seq<Version>, now: nat)
    requires Chain(k, v, now)
    ensures Chain(k, v, now + 1)
  {
  }

  /** A snapshot whose resource version is still current was read from a cache that has caught up. */
  lemma MatchIsCurrent(ks: KeyState, o: Object)
    requires |ks.versions| > 0 && Observed(ks.versions, o) && Matches(ks, o)
    ensures |ks.versions| == 1 && Current(ks) == Cached(ks) == Present(o)
  {
  }

  /** After a gap every version is of a younger incarnation than those before it. */
  lemma {:induction false} GapSeparates(k: Key, v: seq<Version>, now: nat, i: nat, gap: nat, n: nat)
    requires Chain(k, v, now) && i < gap < n < |v|
    requires v[i].Present? && v[gap].Absent? && v[n].Present?
    ensures v[i].obj.uid < v[n].obj.uid
  {
    assert Later(v[i].obj, v[n].obj) && Succeeds(v[n - 1], v[n].obj) && Known(k, v[i].obj, now);
    if v[n - 1].Present? {
      GapSeparates(k, v, now, i, gap, n - 1);
    }
  }

  // -------- snapshots survive the chain's changes --------

  lemma PushObserved(k: Key, v: seq<Version>, w: Version, o: Object, now: nat)
    requires Chain(k, v, now) && Extends(k, v, w, now) && Known(k, o, now) && Observed(v, o)
    ensures Observed(v + [w], o)
  {
  }

  lemma ShrinkObserved(v: seq<Version>, o: Object)
    requires |v| > 1 && Observed(v, o)
    ensures Observed(v[1..], o)
  {
  }

  // -------- every step keeps the key invariant --------

  lemma PushInv(k: Key, ks: KeyState, w: Version, now: nat)
    requires KeyInv(k, ks, now) && Extends(k, ks.versions, w, now)
    ensures Chain(k, Push(ks, w).versions, now + 1)
    ensures SnapOK(k, Push(ks, w), now + 1)
  {
    PushChain(k, ks.versions, w, now);
    if ks.pc.AtAdd? || Removing(ks.pc) {
      PushObserved(k, ks.versions, w, ks.pc.snap, now);
    }
  }

  /** What users and the status watcher write. */
  lemma WriteExtends(k: Key, ks: KeyState, a: Action, now: nat)
    requires KeyInv(k, ks, now) && !a.Restart? && a.key == k && KeyEnabled(ks, a)
    requires a.Create? || a.UserDelete? || a.UserEdit? || a.StatusWrite?
    ensures KeyStep(ks, a, now) == Push(ks, Current(KeyStep(ks, a, now)))
    ensures Extends(k, ks.versions, Current(KeyStep(ks, a, now)), now)
    ensures !Drops(Current(ks), Current(KeyStep(ks, a, now)))
  {
  }

  lemma WriteKeepsInv(k: Key, ks: KeyState, a: Action, now: nat)
    requires KeyInv(k, ks, now) && !a.Restart? && a.key == k && KeyEnabled(ks, a)
    requires a.Create? || a.UserDelete? || a.UserEdit? || a.StatusWrite?
    ensures KeyInv(k, KeyStep(ks, a, now), now + 1)
  {
    var ks' := KeyStep(ks, a, now);
    var n := |ks.versions| - 1;
    WriteExtends(k, ks, a, now);
    PushInv(k, ks, Current(ks'), now);
    assert Cached(ks') == Cached(ks);
    if ks.versions[0].Present? {
      assert Known(k, ks.versions[0].obj, now);
      if n > 0 && ks.versions[n].Present? {
        assert Later(ks.versions[0].obj, ks.versions[n].obj);
      }
    }
  }

  lemma DeliverKeepsInv(k: Key, ks: KeyState, a: Action, now: nat)
    requires KeyInv(k, ks, now) && a == Deliver(k) && KeyEnabled(ks, a)
    ensures KeyInv(k, KeyStep(ks, a, now), now + 1)
  {
    var v, u := ks.versions, ks.versions[1..];
    var ks' := KeyStep(ks, a, now);
    ShrinkChain(k, v, 1, now);
    AgeChain(k, u, now);
    assert forall i :: 0 <= i < |u| ==> u[i] == v[i + 1];
    if ks.pc.AtAdd? || Removing(ks.pc) {
      ShrinkObserved(v, ks.pc.snap);
    }
    assert SnapOK(k, ks', now + 1);
    assert Current(ks') == Current(ks);
  }

  /** What a read finds between cache and server. */
  lemma ReadIsOldest(k: Key, v: seq<Version>, now: nat)
    requires Chain(k, v, now) && Alive(v[0]) && Awi in v[0].obj.finalizers
    ensures NoneOlder(v, v[0].obj)
  {
    forall i, j | 0 <= i < j < |v| && v[i].Absent? && v[j].Present?
      ensures v[0].obj.uid < v[j].obj.uid
    {
      GapSeparates(k, v, now, 0, i, j);
    }
  }

  lemma ReadKeepsInv(k: Key, ks: KeyState, a: Action, now: nat)
    requires KeyInv(k, ks, now) && !a.Restart? && a.key == k && KeyEnabled(ks, a)
    requires a.Dequeue? || a.Get?
    ensures KeyInv(k, KeyStep(ks, a, now), now + 1)
  {
    AgeChain(k, ks.versions, now);
    var v, n := ks.versions, |ks.versions| - 1;
    if v[0].Present? {
      assert Known(k, v[0].obj, now);
      if n > 0 && v[n].Present? { assert Later(v[0].obj, v[n].obj); }
      if Alive(v[0]) && Awi in v[0].obj.finalizers { ReadIsOldest(k, v, now); }
    }
  }

  lemma UpdateKeepsInv(k: Key, ks: KeyState, a: Action, now: nat)
    requires KeyInv(k, ks, now) && !a.Restart? && a.key == k && KeyEnabled(ks, a)
    requires a.Add? || a.Remove?
    ensures KeyInv(k, KeyStep(ks, a, now), now + 1)
  {
    AgeChain(k, ks.versions, now);
    if !a.out.ErrLost? {
      var o := ks.pc.snap;
      MatchIsCurrent(ks, o);
      var w := if a.Add? then Present(WithAwi(o, now)) else Settle(WithoutAwi(o, now));
      PushChain(k, ks.versions, w, now);
      assert Push(ks, w).versions == [Present(o), w];
    }
  }

  lemma RpcKeepsInv(k: Key, ks: KeyState, a: Action, now: nat)
    requires KeyInv(k, ks, now) && !a.Restart? && a.key == k && KeyEnabled(ks, a)
    requires a.Connect? || a.Disconnect? || a.ListApps? || a.DisconnectApp? || a.Panic?
    ensures KeyInv(k, KeyStep(ks, a, now), now + 1)
  {
    AgeChain(k, ks.versions, now);
  }

  lemma StepKeepsKeyInv(k: Key, ks: KeyState, a: Action, now: nat)
    requires KeyInv(k, ks, now) && !a.Restart? && a.key == k && KeyEnabled(ks, a)
    ensures KeyInv(k, KeyStep(ks, a, now), now + 1)
  {
    match a
    case Create(_, _, _) => WriteKeepsInv(k, ks, a, now);
    case UserDelete(_) => WriteKeepsInv(k, ks, a, now);
    case UserEdit(_, _) => WriteKeepsInv(k, ks, a, now);
    case StatusWrite(_, _) => WriteKeepsInv(k, ks, a, now);
    case Deliver(_) => DeliverKeepsInv(k, ks, a, now);
    case Dequeue(_) => ReadKeepsInv(k, ks, a, now);
    case Get(_, _) => ReadKeepsInv(k, ks, a, now);
    case Add(_, _) => UpdateKeepsInv(k, ks, a, now);
    case Remove(_, _) => UpdateKeepsInv(k, ks, a, now);
    case Connect(_, _, _) => RpcKeepsInv(k, ks, a, now);
    case Disconnect(_, _) => RpcKeepsInv(k, ks, a, now);
    case ListApps(_, _, _) => RpcKeepsInv(k, ks, a, now);
    case DisconnectApp(_, _) => RpcKeepsInv(k, ks, a, now);
    case Panic(_) => RpcKeepsInv(k, ks, a, now);
  }

  /** A new cache may start anywhere in the history. */
  lemma RestartKeepsKeyInv(k: Key, history: seq<Version>, at: nat, now: nat)
    requires Chain(k, history, now) && at < |history|
    ensures KeyInv(k, Restarted(history, at), now + 1)
  {
  }

  // -------- what the server holds after a step --------

  /** Only an accepted removal takes the finalizer off, and only when the cache has caught up. */
  lemma DropStep(k: Key, ks: KeyState, a: Action, now: nat)
    requires KeyInv(k, ks, now) && !a.Restart? && a.key == k && KeyEnabled(ks, a)
    ensures Drops(Current(ks), Current(KeyStep(ks, a, now))) <==> a.Remove? && !a.out.ErrLost?
    ensures
      a.Remove? && !a.out.ErrLost? ==>
        ks.versions == [Present(ks.pc.snap)] && Emits(ks, a) == [Dropped(Owner(k, Current(ks).obj.uid))]
  {
  }

  /** A step appends a version that extends the chain, or leaves the current version as it is. */
  lemma CurrentStep(k: Key, ks: KeyState, a: Action, now: nat)
    requires KeyInv(k, ks, now) && !a.Restart? && a.key == k && KeyEnabled(ks, a)
    ensures
      var ks' := KeyStep(ks, a, now);
      if ks'.versions == ks.versions + [Current(ks')] then Extends(k, ks.versions, Current(ks'), now)
      else Current(ks') == Current(ks)
  {
    if a.Create? || a.UserDelete? || a.UserEdit? || a.StatusWrite? {
      WriteExtends(k, ks, a, now);
    } else if (a.Add? || a.Remove?) && !a.out.ErrLost? {
      MatchIsCurrent(ks, ks.pc.snap);
      assert Known(k, ks.pc.snap, now);
    }
  }

  // -------- reads that are as good as reading the API server --------

  /** The window's current version backs the snapshot. Unless only the connection is to be the same,
      nothing between cache and server is of another incarnation. */
  ghost predicate Reaches(how: Recency, v: seq<Version>, o: Object) {
    && |v| > 0 && Backed(how, v[|v| - 1], o)
    && (!how.SameConnection? ==> forall i :: 0 <= i < |v| ==> v[i].Present? && v[i].obj.uid == o.uid)
  }

  ghost predicate SoundKey(how: Recency, ks: KeyState) {
    && |ks.versions| > 0 && Sound(how, ks.versions)
    && (ks.pc.AtConnect? && Sendable(ks.pc.snap.spec) ==> Reaches(how, ks.versions, ks.pc.snap))
  }

  /** Reading a live object with the finalizer from a stale cache is as good as reading it from the
      API server: the same incarnation is still there and still carries the finalizer. */
  lemma StaleReadIsLive(how: Recency, k: Key, v: seq<Version>, now: nat)
    requires Chain(k, v, now) && Sound(how, v) && Connects(v[0])
    ensures Reaches(how, v, v[0].obj)
  {
    var n := |v| - 1;
    assert Backed(how, v[n], v[0].obj);
    if !how.SameConnection? {
      forall i | 0 <= i <= n
        ensures v[i].Present? && v[i].obj.uid == v[0].obj.uid
      {
        if 0 < i < n {
          if v[i].Absent? { GapSeparates(k, v, now, 0, i, n); }
          assert Later(v[0].obj, v[i].obj) && Later(v[i].obj, v[n].obj);
        }
      }
    }
  }

  /** A write that does not take the finalizer off backs what was backed. */
  lemma SoundPush(how: Recency, k: Key, ks: KeyState, w: Version, now: nat)
    requires SoundKey(how, ks) && Extends(k, ks.versions, w, now) && !Drops(Current(ks), w)
    ensures SoundKey(how, Push(ks, w))
  {
  }

  /** A cache that moves forward keeps what the older one had. */
  lemma SoundShrink(how: Recency, v: seq<Version>, at: nat)
    requires Sound(how, v) && at < |v|
    ensures Sound(how, v[at..])
  {
  }

  lemma SoundUpdate(how: Recency, k: Key, ks: KeyState, a: Action, now: nat)
    requires KeyInv(k, ks, now) && SoundKey(how, ks) && !a.Restart? && a.key == k && KeyEnabled(ks, a)
    requires a.Add? || a.Remove?
    ensures SoundKey(how, KeyStep(ks, a, now))
  {
  }

  lemma StepKeepsSound(how: Recency, k: Key, ks: KeyState, a: Action, now: nat)
    requires KeyInv(k, ks, now) && SoundKey(how, ks) && !a.Restart? && a.key == k && KeyEnabled(ks, a)
    ensures SoundKey(how, KeyStep(ks, a, now))
  {
    if a.Create? || a.UserDelete? || a.UserEdit? || a.StatusWrite? {
      WriteExtends(k, ks, a, now);
      SoundPush(how, k, ks, Current(KeyStep(ks, a, now)), now);
    } else if a.Deliver? {
      SoundShrink(how, ks.versions, 1);
    } else if a.Get? {
      if a.ok && Connects(ks.versions[0]) { StaleReadIsLive(how, k, ks.versions, now); }
    } else if a.Add? || a.Remove? {
      SoundUpdate(how, k, ks, a, now);
    }
  }

  // -------- an uncovered change is still on its way --------

  /** Some undelivered event will put the key in the queue. */
  ghost predicate WakePending(v: seq<Version>) {
    exists i :: 0 < i < |v| && Passes(v[i - 1], v[i])
  }

  /** If the cache does not yet show the incarnation that is current, its create event is
      undelivered; if it does not yet show its deletion, that event is. */
  lemma {:induction false} WakeIsPending(k: Key, v: seq<Version>, now: nat, n: nat)
    requires Chain(k, v, now) && n < |v| && v[n].Present?
    requires !(v[0].Present? && v[0].obj.uid == v[n].obj.uid && (v[n].obj.deleting ==> v[0].obj.deleting))
    ensures exists i :: 0 < i <= n && Passes(v[i - 1], v[i])
  {
    assert n > 0;
    if !Passes(v[n - 1], v[n]) {
      assert v[n - 1].Present? && !v[n].obj.deleting;
      assert Later(v[n - 1].obj, v[n].obj);
      WakeIsPending(k, v, now, n - 1);
    }
  }
}
