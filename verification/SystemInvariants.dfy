/** The invariants that tie resources and the AWI server together, for runs whose restarts are of a
    given kind, and the proof that every action keeps them. */
module SystemInvariants {
  import opened AppConnections
  import opened KeyInvariants
  import opened Protocol
  import opened WorkInvariants

  // -------- who answers for a connection on the server --------

  /** The stored object carries the operator's finalizer, and the reconciler is not already past its
      disconnect. */
  ghost predicate Held(ks: KeyState) {
    && Current(ks).Present? && Awi in Current(ks).obj.finalizers
    && !(ks.pc.AtRemove? && ks.pc.snap.uid == Current(ks).obj.uid)
  }

  ghost predicate NetHeld(ks: KeyState, id: string) {
    Held(ks) && Current(ks).obj.spec.Net? && NetId(Current(ks).obj.spec) == id
  }

  ghost predicate AppHeld(ks: KeyState, p: AppKey, id: string) {
    && Held(ks) && Current(ks).obj.spec.App? && KeyOf(Current(ks).obj.spec.app) == p
    && (ks.pc.AtDisconnectApp? && ks.pc.snap.uid == Current(ks).obj.uid ==> ks.pc.id == id)
  }

  ghost predicate NetOK(s: State, id: string)
    requires id in s.remote.nets
  {
    NetHeld(KS(s, s.remote.nets[id].key), id)
  }

  ghost predicate NetsInv(s: State) {
    forall id :: id in s.remote.nets ==> NetOK(s, id)
  }

  ghost predicate AppOK(s: State, p: AppKey)
    requires p in s.remote.apps
  {
    AppHeld(KS(s, s.remote.apps[p].owner.key), p, s.remote.apps[p].id)
  }

  ghost predicate AppsInv(s: State) {
    forall p :: p in s.remote.apps ==> AppOK(s, p)
  }

  ghost predicate SoundInv(how: Recency, s: State) {
    forall k :: SoundKey(how, KS(s, k))
  }

  ghost predicate NoSentAfterDrop(t: seq<Event>) {
    forall i, j :: 0 <= i < j < |t| && t[i].Dropped? && t[j].Sent? ==> t[i].owner != t[j].owner
  }

  ghost predicate Inv(how: Recency, s: State) {
    && BaseInv(s) && SoundInv(how, s) && NetsInv(s) && AppsInv(s)
    && (!how.SameConnection? ==> NoSentAfterDrop(s.trace))
  }

  // -------- restarts --------

  /** A cache that does not go backwards shows nothing that the older one did not. */
  lemma ForwardIsSound(how: Recency, s: State, a: Action, k: Key)
    requires Enabled(s, a) && a.Restart? && SoundKey(how, KS(s, k)) && k in s.keys
    requires |Past(s, k)| <= a.at[k] < |History(s, k)|
    ensures Sound(how, History(s, k)[a.at[k]..])
  {
    var at := a.at[k] - |Past(s, k)|;
    SoundShrink(how, KS(s, k).versions, at);
    assert History(s, k)[a.at[k]..] == KS(s, k).versions[at..];
  }

  lemma RestartKeepsSound(how: Recency, s: State, a: Action, k: Key)
    requires Enabled(s, a) && a.Restart? && FreshStep(how, s, a) && SoundKey(how, KS(s, k))
    ensures SoundKey(how, KS(Next(s, a), k))
  {
    RestartFrame(s, a, k);
    if k in s.keys && how.Forward? { ForwardIsSound(how, s, a, k); }
  }

  lemma StepKeepsSoundInv(how: Recency, s: State, a: Action)
    requires BaseInv(s) && SoundInv(how, s) && Enabled(s, a) && FreshStep(how, s, a)
    ensures SoundInv(how, Next(s, a))
  {
    forall k
      ensures SoundKey(how, KS(Next(s, a), k))
    {
      assert WorkInv(s, k) && SoundKey(how, KS(s, k));
      if a.Restart? {
        RestartKeepsSound(how, s, a, k);
      } else {
        StepFrame(s, a, k);
        if k == a.key { StepKeepsSound(how, k, KS(s, k), a, s.now); }
      }
    }
  }

  // -------- ownership --------

  /** A held object stays held, with the same incarnation and spec, unless its disconnect has just
      finished. */
  lemma HeldStep(k: Key, ks: KeyState, a: Action, now: nat)
    requires KeyInv(k, ks, now) && !a.Restart? && a.key == k && KeyEnabled(ks, a)
    requires Held(ks)
    ensures
      var cur, cur' := Current(ks), Current(KeyStep(ks, a, now));
      && cur'.Present? && Awi in cur'.obj.finalizers
      && cur'.obj.uid == cur.obj.uid && cur'.obj.spec == cur.obj.spec
  {
    DropStep(k, ks, a, now);
    CurrentStep(k, ks, a, now);
  }

  /** The snapshot being disconnected has the spec of the current object when it is of its incarnation. */
  lemma SnapSpec(k: Key, ks: KeyState, now: nat)
    requires KeyInv(k, ks, now) && (ks.pc.AtAdd? || Removing(ks.pc))
    requires Current(ks).Present? && Current(ks).obj.uid == ks.pc.snap.uid
    ensures Current(ks).obj.spec == ks.pc.snap.spec
    ensures Removing(ks.pc) ==> Current(ks).obj.deleting
  {
  }

  /** Where an entry of the server's network domain connections comes from. */
  lemma NetsStep(remote: Remote, ks: KeyState, a: Action, cluster: string, id: string)
    requires !a.Restart? && KeyEnabled(ks, a)
    requires id in RemoteStep(remote, ks, a, cluster).nets
    ensures
      var nets' := RemoteStep(remote, ks, a, cluster).nets;
      || (id in remote.nets && nets'[id] == remote.nets[id]
          && !(a.Disconnect? && !a.out.ErrLost? && NetId(ks.pc.snap.spec) == id))
      || (a.Connect? && ks.pc.snap.spec.Net? && id == NetId(ks.pc.snap.spec)
          && nets'[id] == Owner(a.key, ks.pc.snap.uid))
  {
  }

  /** Holding a network domain connection survives every step but the disconnect of that connection. */
  lemma NetHeldStep(k: Key, ks: KeyState, a: Action, now: nat, id: string)
    requires KeyInv(k, ks, now) && !a.Restart? && a.key == k && KeyEnabled(ks, a)
    requires NetHeld(ks, id)
    requires !(a.Disconnect? && !a.out.ErrLost? && NetId(ks.pc.snap.spec) == id)
    ensures NetHeld(KeyStep(ks, a, now), id)
  {
    HeldStep(k, ks, a, now);
    if ks.pc.AtDisconnect? || ks.pc.AtDisconnectApp? {
      if ks.pc.snap.uid == Current(ks).obj.uid { SnapSpec(k, ks, now); }
    }
  }

  /** A connect makes the key that sent it the holder. */
  lemma ConnectHolds(how: Recency, k: Key, ks: KeyState, a: Action, now: nat)
    requires KeyInv(k, ks, now) && SoundKey(how, ks) && a.Connect? && a.key == k && KeyEnabled(ks, a)
    ensures Held(KeyStep(ks, a, now)) && KeyStep(ks, a, now).pc.Idle?
    ensures RemoteIdOf(Current(KeyStep(ks, a, now)).obj.spec) == RemoteIdOf(ks.pc.snap.spec)
  {
  }

  lemma NetRestart(s: State, a: Action, id: string)
    requires BaseInv(s) && NetsInv(s) && Enabled(s, a) && a.Restart? && id in s.remote.nets
    ensures NetOK(Next(s, a), id)
  {
    var k := s.remote.nets[id].key;
    assert NetOK(s, id) && WorkInv(s, k);
    RestartFrame(s, a, k);
  }

  lemma NetStep(how: Recency, s: State, a: Action, id: string)
    requires NetsInv(s) && Enabled(s, a) && !a.Restart?
    requires KeyInv(a.key, KS(s, a.key), s.now) && SoundKey(how, KS(s, a.key))
    requires id in Next(s, a).remote.nets
    ensures NetOK(Next(s, a), id)
  {
    var ow := Next(s, a).remote.nets[id];
    var ks := KS(s, a.key);
    StepFrame(s, a, ow.key);
    NetsStep(s.remote, ks, a, s.cluster, id);
    if a.Connect? && ks.pc.snap.spec.Net? && id == NetId(ks.pc.snap.spec) && ow == Owner(a.key, ks.pc.snap.uid) {
      ConnectHolds(how, a.key, ks, a, s.now);
    } else {
      assert NetOK(s, id);
      if ow.key == a.key {
        NetHeldStep(a.key, ks, a, s.now, id);
      }
    }
  }

  lemma StepKeepsNets(how: Recency, s: State, a: Action)
    requires BaseInv(s) && SoundInv(how, s) && NetsInv(s) && Enabled(s, a)
    ensures NetsInv(Next(s, a))
  {
    var s' := Next(s, a);
    forall id | id in s'.remote.nets
      ensures NetOK(s', id)
    {
      if a.Restart? {
        NetRestart(s, a, id);
      } else {
        assert WorkInv(s, a.key) && SoundKey(how, KS(s, a.key));
        NetStep(how, s, a, id);
      }
    }
  }

  // -------- ownership of app connections --------

  /** Holding an app connection survives every step but its disconnect: a listing that finds
      nothing shows there is no such entry, and one that finds something finds this entry. */
  lemma AppHeldStep(k: Key, ks: KeyState, a: Action, now: nat, p: AppKey, id: string)
    requires KeyInv(k, ks, now) && !a.Restart? && a.key == k && KeyEnabled(ks, a)
    requires AppHeld(ks, p, id) && id != ""
    requires !(a.DisconnectApp? && !a.out.ErrLost? && ks.pc.id == id)
    requires a.ListApps? && a.ok ==> FindId(a.listing, p) == id
    ensures AppHeld(KeyStep(ks, a, now), p, id)
  {
    HeldStep(k, ks, a, now);
    if ks.pc.AtDisconnect? || ks.pc.AtDisconnectApp? {
      if ks.pc.snap.uid == Current(ks).obj.uid { SnapSpec(k, ks, now); }
    }
  }

  lemma AppRestart(s: State, a: Action, p: AppKey)
    requires BaseInv(s) && AppsInv(s) && Enabled(s, a) && a.Restart? && p in s.remote.apps
    ensures AppOK(Next(s, a), p)
  {
    var k := s.remote.apps[p].owner.key;
    assert AppOK(s, p) && WorkInv(s, k);
    RestartFrame(s, a, k);
  }

  /** An entry that was there before the step. */
  lemma AppStays(s: State, a: Action, p: AppKey)
    requires RemoteInv(s.remote) && AppsInv(s) && Enabled(s, a) && !a.Restart?
    requires KeyInv(a.key, KS(s, a.key), s.now)
    requires p in s.remote.apps && p in Next(s, a).remote.apps && Next(s, a).remote.apps[p] == s.remote.apps[p]
    requires !(a.DisconnectApp? && !a.out.ErrLost? && KS(s, a.key).pc.id == s.remote.apps[p].id)
    ensures AppOK(Next(s, a), p)
  {
    var e := s.remote.apps[p];
    StepFrame(s, a, e.owner.key);
    assert AppOK(s, p);
    if e.owner.key == a.key {
      if a.ListApps? && a.ok { ListingFinds(a.listing, s.remote.apps, p); }
      AppHeldStep(a.key, KS(s, a.key), a, s.now, p, e.id);
    }
  }

  lemma AppStep(how: Recency, s: State, a: Action, p: AppKey)
    requires RemoteInv(s.remote) && AppsInv(s) && Enabled(s, a) && !a.Restart?
    requires KeyInv(a.key, KS(s, a.key), s.now) && SoundKey(how, KS(s, a.key))
    requires p in Next(s, a).remote.apps
    ensures AppOK(Next(s, a), p)
  {
    var e := Next(s, a).remote.apps[p];
    var ks := KS(s, a.key);
    AppsStep(s.remote, ks, a, s.cluster, p);
    if p in s.remote.apps && e == s.remote.apps[p] && !(a.DisconnectApp? && !a.out.ErrLost? && ks.pc.id == e.id) {
      AppStays(s, a, p);
    } else {
      StepFrame(s, a, e.owner.key);
      ConnectHolds(how, a.key, ks, a, s.now);
      DefaultClusterKeepsKey(ks.pc.snap.spec.app, s.cluster);
    }
  }

  lemma StepKeepsApps(how: Recency, s: State, a: Action)
    requires BaseInv(s) && SoundInv(how, s) && AppsInv(s) && Enabled(s, a)
    ensures AppsInv(Next(s, a))
  {
    var s' := Next(s, a);
    forall p | p in s'.remote.apps
      ensures AppOK(s', p)
    {
      if a.Restart? {
        AppRestart(s, a, p);
      } else {
        assert WorkInv(s, a.key) && SoundKey(how, KS(s, a.key));
        AppStep(how, s, a, p);
      }
    }
  }

  // -------- the record --------

  /** A key that sends a connect has not dropped the finalizer of that incarnation. */
  lemma SenderIsNotGone(how: Recency, ks: KeyState, a: Action)
    requires SoundKey(how, ks) && !how.SameConnection? && a.Connect? && KeyEnabled(ks, a)
    ensures !Gone(ks, ks.pc.snap.uid)
  {
  }

  lemma StepKeepsOrder(how: Recency, s: State, a: Action)
    requires BaseInv(s) && SoundInv(how, s) && !how.SameConnection? && NoSentAfterDrop(s.trace) && Enabled(s, a)
    ensures NoSentAfterDrop(Next(s, a).trace)
  {
    var s' := Next(s, a);
    if !a.Restart? {
      var k, ks := a.key, KS(s, a.key);
      EmitsOne(ks, a);
      if a.Connect? {
        assert SoundKey(how, ks);
        SenderIsNotGone(how, ks, a);
        forall i | 0 <= i < |s.trace| && s.trace[i].Dropped?
          ensures s.trace[i].owner != Owner(k, ks.pc.snap.uid)
        {
          assert EventOK(s, i);
        }
      }
    }
  }

  // -------- all runs of a kind --------

  lemma StepKeepsInv(how: Recency, s: State, a: Action)
    requires Inv(how, s) && Enabled(s, a) && FreshStep(how, s, a)
    ensures Inv(how, Next(s, a))
  {
    StepKeepsBase(s, a);
    StepKeepsSoundInv(how, s, a);
    StepKeepsNets(how, s, a);
    StepKeepsApps(how, s, a);
    if !how.SameConnection? { StepKeepsOrder(how, s, a); }
  }

  lemma InitInv(how: Recency, cluster: string)
    ensures Inv(how, Init(cluster))
  {
    InitBase(cluster);
  }

  lemma {:induction false} RunKeepsInv(how: Recency, s: State, run: seq<Action>)
    requires Inv(how, s) && Legal(s, run) && Fresh(how, s, run)
    ensures Inv(how, Exec(s, run))
    decreases |run|
  {
    if run != [] {
      assert LegalFrom(s, run) && Exec(s, run) == ExecFrom(s, run) && FreshFrom(how, s, run);
      StepKeepsInv(how, s, run[0]);
      RunKeepsInv(how, Next(s, run[0]), run[1..]);
    }
  }

  /** The invariant holds in every reachable state. */
  lemma Reachable(how: Recency, cluster: string, run: seq<Action>)
    requires Legal(Init(cluster), run) && Fresh(how, Init(cluster), run)
    ensures Inv(how, Exec(Init(cluster), run))
  {
    InitInv(how, cluster);
    RunKeepsInv(how, Init(cluster), run);
  }

  // -------- how the kinds of restarts compare --------

  /** A stricter kind of restart is also of the laxer kind. */
  predicate Implies(strict: Recency, lax: Recency) {
    strict == lax || strict.Forward? || lax.SameConnection?
  }

  lemma StricterStep(strict: Recency, lax: Recency, s: State, a: Action)
    requires Implies(strict, lax) && SoundInv(strict, s) && SoundInv(lax, s) && Enabled(s, a) && FreshStep(strict, s, a)
    ensures FreshStep(lax, s, a)
  {
    if a.Restart? {
      forall k | k in s.keys
        ensures if lax.Forward? then |Past(s, k)| <= a.at[k] else Sound(lax, History(s, k)[a.at[k]..])
      {
        if strict.Forward? && !lax.Forward? {
          assert SoundKey(lax, KS(s, k));
          ForwardIsSound(lax, s, a, k);
        } else {
          assert Sound(strict, History(s, k)[a.at[k]..]) || lax.Forward?;
        }
      }
    }
  }

  lemma {:induction false} StricterRun(strict: Recency, lax: Recency, s: State, run: seq<Action>)
    requires Implies(strict, lax) && Inv(strict, s) && Inv(lax, s) && Legal(s, run) && Fresh(strict, s, run)
    ensures Fresh(lax, s, run)
    decreases |run|
  {
    if run != [] {
      assert LegalFrom(s, run) && FreshFrom(strict, s, run);
      StricterStep(strict, lax, s, run[0]);
      StepKeepsInv(strict, s, run[0]);
      StepKeepsInv(lax, s, run[0]);
      StricterRun(strict, lax, Next(s, run[0]), run[1..]);
      assert FreshFrom(lax, s, run);
    }
  }

  /** Caches that never go backwards satisfy both conditions on caches that do. */
  lemma StricterIsLaxer(strict: Recency, lax: Recency, cluster: string, run: seq<Action>)
    requires Implies(strict, lax) && Legal(Init(cluster), run) && Fresh(strict, Init(cluster), run)
    ensures Fresh(lax, Init(cluster), run)
  {
    InitInv(strict, cluster);
    InitInv(lax, cluster);
    StricterRun(strict, lax, Init(cluster), run);
  }
}
