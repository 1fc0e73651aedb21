/** What holds in every reachable state of the protocol, whatever users do, whatever fails and
    however stale the cache is. */
module Safety {
  import opened KeyInvariants
  import opened Protocol
  import opened SystemInvariants
  import opened WorkInvariants

  // -------- no orphan connections --------

  /** The stored resource carries the operator's finalizer and asks for this connection. */
  ghost predicate Claims(ks: KeyState, r: RemoteId) {
    Current(ks).Present? && Awi in Current(ks).obj.finalizers && RemoteIdOf(Current(ks).obj.spec) == r
  }

  ghost predicate Claimed(s: State, r: RemoteId) {
    exists k :: k in s.keys && Claims(s.keys[k], r)
  }

  ghost predicate NoOrphans(s: State) {
    forall r :: Up(s.remote, r) ==> Claimed(s, r)
  }

  /** In every reachable state each connection of either kind on the AWI server belongs to a resource
      that is still stored and still carries the finalizer. Restarts may go back to caches older than
      before, as long as every version that connects from there on is backed by the stored one. */
  lemma NoOrphanConnections(cluster: string, run: seq<Action>)
    requires Legal(Init(cluster), run) && Fresh(SameConnection, Init(cluster), run)
    ensures NoOrphans(Exec(Init(cluster), run))
  {
    Reachable(SameConnection, cluster, run);
    InvHasNoOrphans(SameConnection, Exec(Init(cluster), run));
  }

  lemma InvHasNoOrphans(how: Recency, s: State)
    requires Inv(how, s)
    ensures NoOrphans(s)
  {
    forall r | Up(s.remote, r)
      ensures Claimed(s, r)
    {
      assert if r.NetConn? then NetOK(s, r.id) else AppOK(s, r.key);
      var k := OwnerOf(s.remote, r).key;
      assert k in s.keys && Claims(s.keys[k], r);
    }
  }

  // -------- no lost work --------

  /** The key is queued, being reconciled, or an undelivered event will queue it. */
  ghost predicate WorkScheduled(ks: KeyState) {
    ks.queued || InFlight(ks.pc) || WakePending(ks.versions)
  }

  /** A resource still needs the operator: it is terminating with the finalizer, or it is live and
      no connect for this incarnation has succeeded. */
  ghost predicate NeedsWork(s: State, k: Key) {
    Terminating(Current(KS(s, k))) || (Alive(Current(KS(s, k))) && !Connected(s, k))
  }

  /** Although the filters drop updates of live objects and all delete events, no resource that
      needs work is ever forgotten, wherever restarts begin to list. */
  lemma NoLostWork(cluster: string, run: seq<Action>, k: Key)
    requires Legal(Init(cluster), run)
    ensures
      var s := Exec(Init(cluster), run);
      NeedsWork(s, k) ==> WorkScheduled(KS(s, k))
  {
    var s := Exec(Init(cluster), run);
    ReachableBase(cluster, run);
    if NeedsWork(s, k) {
      NeededIsScheduled(s, k);
    }
  }

  lemma NeededIsScheduled(s: State, k: Key)
    requires BaseInv(s) && NeedsWork(s, k)
    ensures WorkScheduled(KS(s, k))
  {
    var ks := KS(s, k);
    assert WorkInv(s, k);
    var v, n := ks.versions, |ks.versions| - 1;
    if !(v[0].Present? && v[0].obj.uid == v[n].obj.uid && (v[n].obj.deleting ==> v[0].obj.deleting)) {
      WakeIsPending(k, v, s.now, n);
    }
  }

  // -------- the finalizer is dropped only after the last word was a disconnect --------

  /** A step takes the operator's finalizer off a stored object exactly when it records so. */
  lemma DropIsRecorded(s: State, a: Action, k: Key)
    requires BaseInv(s) && Enabled(s, a)
    ensures
      Drops(Current(KS(s, k)), Current(KS(Next(s, a), k))) <==>
      (Current(KS(s, k)).Present? && Next(s, a).trace == s.trace + [Dropped(Owner(k, Current(KS(s, k)).obj.uid))])
  {
    var s' := Next(s, a);
    var ks := KS(s, k);
    assert WorkInv(s, k);
    if a.Restart? {
      RestartFrame(s, a, k);
      assert s'.trace == s.trace;
    } else {
      StepFrame(s, a, k);
      var emitted := Emits(KS(s, a.key), a);
      assert s'.trace == s.trace + emitted && s'.trace[|s.trace|..] == emitted;
      assert WorkInv(s, a.key);
      DropStep(a.key, KS(s, a.key), a, s.now);
      if Current(ks).Present? && s'.trace == s.trace + [Dropped(Owner(k, Current(ks).obj.uid))] {
        assert emitted == [Dropped(Owner(k, Current(ks).obj.uid))];
        assert a.Remove? && a.key == k;
      }
    }
  }

  /** Event `j` is a successful disconnect for the incarnation, and no connect for it follows before
      event `n`. */
  ghost predicate LastWord(t: seq<Event>, ow: Owner, j: int, n: int) {
    && 0 <= j < n <= |t| && t[j] == Cleared(ow)
    && forall m :: j < m < n && t[m].Sent? ==> t[m].owner != ow
  }

  lemma {:induction false} LastClearedAt(t: seq<Event>, ow: Owner)
    requires LastIsCleared(t, ow)
    ensures exists j :: LastWord(t, ow, j, |t|)
    decreases |t|
  {
    var n := |t| - 1;
    if t[n] == Cleared(ow) {
      assert LastWord(t, ow, n, |t|);
    } else {
      LastClearedAt(t[..n], ow);
      var j :| LastWord(t[..n], ow, j, n);
      forall m | j < m < |t| && t[m].Sent?
        ensures t[m].owner != ow
      {
        if m < n { assert t[..n][m] == t[m]; }
      }
      assert LastWord(t, ow, j, |t|);
    }
  }

  /** Over every run: when an incarnation loses the finalizer, a successful disconnect came before,
      and no connect for that incarnation was sent in between. */
  lemma DropsFollowDisconnects(cluster: string, run: seq<Action>, i: nat)
    requires Legal(Init(cluster), run)
    requires
      var t := Exec(Init(cluster), run).trace;
      i < |t| && t[i].Dropped?
    ensures
      var t := Exec(Init(cluster), run).trace;
      exists j :: LastWord(t, t[i].owner, j, i)
  {
    var s := Exec(Init(cluster), run);
    var t, ow := s.trace, s.trace[i].owner;
    ReachableBase(cluster, run);
    assert EventOK(s, i);
    LastClearedAt(t[..i], ow);
    var j :| LastWord(t[..i], ow, j, i);
    assert t[..i][j] == t[j];
    forall m | j < m < i && t[m].Sent?
      ensures t[m].owner != ow
    {
      assert t[..i][m] == t[m];
    }
    assert LastWord(t, ow, j, i);
  }

  /** Nor is one sent ever after, even if the name is used again, when every version that connects
      after a restart is of the stored incarnation. */
  lemma DropsAreJustified(cluster: string, run: seq<Action>, i: nat)
    requires Legal(Init(cluster), run) && Fresh(SameIncarnation, Init(cluster), run)
    requires
      var t := Exec(Init(cluster), run).trace;
      i < |t| && t[i].Dropped?
    ensures
      var t := Exec(Init(cluster), run).trace;
      exists j :: j < i && LastWord(t, t[i].owner, j, |t|)
  {
    var t := Exec(Init(cluster), run).trace;
    DropsFollowDisconnects(cluster, run, i);
    Reachable(SameIncarnation, cluster, run);
    var j :| LastWord(t, t[i].owner, j, i);
    assert LastWord(t, t[i].owner, j, |t|);
  }
}
