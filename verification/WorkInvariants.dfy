/** What holds of every run at all, however far back a restart lists: every resource that needs the
    operator is being attended to, every loss of the finalizer is on record, and each one was
    preceded by a disconnect. */
module WorkInvariants {
  import opened AppConnections
  import opened KeyInvariants
  import opened Protocol

  /** A live object the cache shows is queued, in work, or has been connected. */
  ghost predicate ServedKey(ks: KeyState, connected: bool) {
    Alive(Current(ks)) && Cached(ks).Present? && Cached(ks).obj.uid == Current(ks).obj.uid ==>
      || ks.queued || ks.pc.Dequeued?
      || ((ks.pc.AtAdd? || ks.pc.AtConnect?) && ks.pc.snap.uid == Current(ks).obj.uid)
      || connected
  }

  ghost predicate Connected(s: State, k: Key) {
    Current(KS(s, k)).Present? && Sent(Owner(k, Current(KS(s, k)).obj.uid), true) in s.trace
  }

  ghost predicate Served(s: State, k: Key) {
    ServedKey(KS(s, k), Connected(s, k))
  }

  /** The incarnation is stored and carries the operator's finalizer. */
  ghost predicate Holds(ks: KeyState, uid: nat) {
    Current(ks).Present? && Current(ks).obj.uid == uid && Awi in Current(ks).obj.finalizers
  }

  /** Every incarnation that ever carried the finalizer holds it still, or its loss is on record. */
  ghost predicate Recorded(s: State, k: Key) {
    var h := History(s, k);
    forall i :: 0 <= i < |h| && h[i].Present? && Awi in h[i].obj.finalizers ==>
      Holds(KS(s, k), h[i].obj.uid) || Dropped(Owner(k, h[i].obj.uid)) in s.trace
  }

  ghost predicate WorkInv(s: State, k: Key) {
    && KeyInv(k, KS(s, k), s.now)
    && Chain(k, History(s, k), s.now)
    && Served(s, k)
    && Recorded(s, k)
  }

  // -------- the record --------

  /** Of the connects and disconnects recorded for an incarnation, the last is a disconnect. */
  predicate LastIsCleared(t: seq<Event>, ow: Owner) {
    if t == [] then false
    else
      var last := t[|t| - 1];
      if last == Cleared(ow) then true
      else if last.Sent? && last.owner == ow then false
      else LastIsCleared(t[..|t| - 1], ow)
  }

  /** Incarnation `u` is not stored any more, or on its way out without the operator's finalizer. */
  ghost predicate Gone(ks: KeyState, u: nat) {
    Current(ks).Present? && Current(ks).obj.uid == u ==>
      Current(ks).obj.deleting && Awi !in Current(ks).obj.finalizers
  }

  ghost predicate EventOK(s: State, i: nat)
    requires i < |s.trace|
  {
    var ow := s.trace[i].owner;
    && ow.uid < s.now
    && (s.trace[i].Dropped? ==> LastIsCleared(s.trace[..i], ow) && Gone(KS(s, ow.key), ow.uid))
  }

  ghost predicate ReadyToRemove(s: State, k: Key) {
    KS(s, k).pc.AtRemove? ==> LastIsCleared(s.trace, Owner(k, KS(s, k).pc.snap.uid))
  }

  /** Entries are filed under their keys and have identifiers of their own. */
  ghost predicate RemoteInv(remote: Remote) {
    && (forall p :: p in remote.apps ==> remote.apps[p].id != "" && KeyOf(remote.apps[p].config) == p)
    && (forall p, q :: p in remote.apps && q in remote.apps && remote.apps[p].id == remote.apps[q].id ==> p == q)
  }

  ghost predicate BaseInv(s: State) {
    && RemoteInv(s.remote)
    && (forall k :: WorkInv(s, k))
    && (forall k :: ReadyToRemove(s, k))
    && (forall i :: 0 <= i < |s.trace| ==> EventOK(s, i))
  }

  /** A step records at most one event, about the key it works on. */
  lemma EmitsOne(ks: KeyState, a: Action)
    requires !a.Restart? && KeyEnabled(ks, a)
    ensures |Emits(ks, a)| <= 1
    ensures |Emits(ks, a)| == 1 ==> HasSnap(ks.pc) && Emits(ks, a)[0].owner == Owner(a.key, ks.pc.snap.uid)
  {
  }

  // -------- steps --------

  /** Nothing but a successful connect takes a live object out of the reconciler's hands. */
  lemma ServedStep(k: Key, ks: KeyState, a: Action, now: nat, connected: bool)
    requires KeyInv(k, ks, now) && !a.Restart? && a.key == k && KeyEnabled(ks, a)
    requires ServedKey(ks, connected)
    ensures
      var ks' := KeyStep(ks, a, now);
      ServedKey(ks', (connected && Current(ks).Present? && Current(ks').Present?
                        && Current(ks').obj.uid == Current(ks).obj.uid)
                     || (a.Connect? && a.out.Ok? && Current(ks').Present? && Current(ks').obj.uid == ks.pc.snap.uid))
  {
  }

  lemma ServedKeeps(s: State, a: Action, k: Key)
    requires Served(s, k) && Enabled(s, a) && !a.Restart? && KeyInv(k, KS(s, k), s.now)
    ensures Served(Next(s, a), k)
  {
    var s' := Next(s, a);
    StepFrame(s, a, k);
    assert forall e :: e in s.trace ==> e in s'.trace;
    if k == a.key {
      ServedStep(k, KS(s, k), a, s.now, Connected(s, k));
      if a.Connect? && a.out.Ok? {
        assert Emits(KS(s, k), a)[0] in s'.trace;
      }
    }
  }

  /** What was held is held or recorded as dropped after the step. */
  lemma HoldsStep(k: Key, ks: KeyState, a: Action, now: nat, u: nat)
    requires KeyInv(k, ks, now) && !a.Restart? && a.key == k && KeyEnabled(ks, a)
    requires Holds(ks, u)
    ensures Holds(KeyStep(ks, a, now), u) || Emits(ks, a) == [Dropped(Owner(k, u))]
  {
    DropStep(k, ks, a, now);
  }

  lemma RecordedStep(s: State, a: Action, k: Key)
    requires Recorded(s, k) && Enabled(s, a) && !a.Restart? && KeyInv(k, KS(s, k), s.now)
    ensures Recorded(Next(s, a), k)
  {
    var s' := Next(s, a);
    var h, h' := History(s, k), History(s', k);
    StepFrame(s, a, k);
    HistoryStep(s, a, k);
    assert s'.trace == s.trace + Emits(KS(s, a.key), a);
    forall i | 0 <= i < |h'| && h'[i].Present? && Awi in h'[i].obj.finalizers
      ensures Holds(KS(s', k), h'[i].obj.uid) || Dropped(Owner(k, h'[i].obj.uid)) in s'.trace
    {
      if i < |h| {
        assert h'[i] == h[i];
        if Holds(KS(s, k), h[i].obj.uid) && k == a.key { HoldsStep(k, KS(s, k), a, s.now, h[i].obj.uid); }
      }
    }
  }

  lemma HistoryChain(s: State, a: Action, k: Key)
    requires Enabled(s, a) && !a.Restart?
    requires KeyInv(k, KS(s, k), s.now) && Chain(k, History(s, k), s.now)
    ensures Chain(k, History(Next(s, a), k), Next(s, a).now)
  {
    var ks, ks', h := KS(s, k), KS(Next(s, a), k), History(s, k);
    StepFrame(s, a, k);
    HistoryStep(s, a, k);
    if k == a.key && ks'.versions == ks.versions + [Current(ks')] {
      CurrentStep(k, ks, a, s.now);
      assert h[|h| - 1] == Current(ks);
      PushChain(k, h, Current(ks'), s.now);
    } else {
      AgeChain(k, h, s.now);
    }
  }

  lemma KeyInvStep(s: State, a: Action, k: Key)
    requires Enabled(s, a) && !a.Restart? && KeyInv(k, KS(s, k), s.now)
    ensures KeyInv(k, KS(Next(s, a), k), Next(s, a).now)
  {
    StepFrame(s, a, k);
    if k == a.key {
      StepKeepsKeyInv(k, KS(s, k), a, s.now);
    } else {
      AgeChain(k, KS(s, k).versions, s.now);
    }
  }

  lemma WorkStep(s: State, a: Action, k: Key)
    requires Enabled(s, a) && !a.Restart? && WorkInv(s, k)
    ensures WorkInv(Next(s, a), k)
  {
    KeyInvStep(s, a, k);
    HistoryChain(s, a, k);
    ServedKeeps(s, a, k);
    RecordedStep(s, a, k);
  }

  lemma RecordedRestart(s: State, a: Action, k: Key)
    requires Enabled(s, a) && a.Restart? && Recorded(s, k) && |KS(s, k).versions| > 0 && k in s.keys
    ensures Recorded(Next(s, a), k)
  {
    RestartFrame(s, a, k);
    assert Next(s, a).trace == s.trace;
  }

  lemma FreshKeyWorks(s: State, k: Key)
    requires KS(s, k) == FRESH_KEY && Past(s, k) == []
    ensures WorkInv(s, k)
  {
  }

  lemma ServedRestarted(history: seq<Version>, at: nat, connected: bool)
    requires at < |history|
    ensures ServedKey(Restarted(history, at), connected)
  {
  }

  /** A new process queues everything it finds, and loses nothing the server holds. */
  lemma WorkRestart(s: State, a: Action, k: Key)
    requires Enabled(s, a) && a.Restart? && WorkInv(s, k)
    ensures WorkInv(Next(s, a), k)
  {
    var s' := Next(s, a);
    RestartFrame(s, a, k);
    if k in s.keys {
      AgeChain(k, History(s, k), s.now);
      RestartKeepsKeyInv(k, History(s, k), a.at[k], s.now);
      RecordedRestart(s, a, k);
      ServedRestarted(History(s, k), a.at[k], Connected(s', k));
    } else {
      FreshKeyWorks(s', k);
    }
  }

  // -------- steps of the server --------

  /** Where an entry of the server's app connections comes from. */
  lemma AppsStep(remote: Remote, ks: KeyState, a: Action, cluster: string, p: AppKey)
    requires !a.Restart? && KeyEnabled(ks, a)
    requires p in RemoteStep(remote, ks, a, cluster).apps
    ensures
      var apps' := RemoteStep(remote, ks, a, cluster).apps;
      || (p in remote.apps && apps'[p] == remote.apps[p]
          && !(a.DisconnectApp? && !a.out.ErrLost? && ks.pc.id == remote.apps[p].id))
      || (a.Connect? && !a.out.ErrLost? && ks.pc.snap.spec.App? && p == KeyOf(ks.pc.snap.spec.app)
          && apps'[p] == AppEntry(a.id, DefaultCluster(ks.pc.snap.spec.app, cluster), Owner(a.key, ks.pc.snap.uid)))
  {
  }

  /** A listing finds the entry of a key exactly when the server has one. */
  lemma ListingFinds(listing: seq<AppInfo>, apps: map<AppKey, AppEntry>, p: AppKey)
    requires IsListing(listing, apps)
    ensures p in apps ==> FindId(listing, p) == apps[p].id
    ensures p !in apps ==> FindId(listing, p) == ""
  {
  }

  lemma RemoteKeeps(remote: Remote, ks: KeyState, a: Action, cluster: string)
    requires RemoteInv(remote) && !a.Restart? && KeyEnabled(ks, a) && RemoteEnabled(remote, ks, a)
    ensures RemoteInv(RemoteStep(remote, ks, a, cluster))
  {
  }

  // -------- steps of the record --------

  lemma LastAppend(t: seq<Event>, e: Event, ow: Owner)
    ensures LastIsCleared(t + [e], ow) ==
            (e == Cleared(ow) || (!(e.Sent? && e.owner == ow) && LastIsCleared(t, ow)))
  {
  }

  lemma GoneStep(k: Key, ks: KeyState, a: Action, now: nat, u: nat)
    requires KeyInv(k, ks, now) && !a.Restart? && a.key == k && KeyEnabled(ks, a)
    requires u < now && Gone(ks, u)
    ensures Gone(KeyStep(ks, a, now), u)
  {
    CurrentStep(k, ks, a, now);
  }

  lemma OldEventStep(s: State, a: Action, i: nat)
    requires Enabled(s, a) && i < |s.trace| && EventOK(s, i)
    requires KeyInv(s.trace[i].owner.key, KS(s, s.trace[i].owner.key), s.now)
    ensures i < |Next(s, a).trace| && EventOK(Next(s, a), i)
  {
    var s' := Next(s, a);
    var k, u := s.trace[i].owner.key, s.trace[i].owner.uid;
    assert s'.trace[i] == s.trace[i] && s'.trace[..i] == s.trace[..i];
    if a.Restart? {
      RestartFrame(s, a, k);
    } else {
      StepFrame(s, a, k);
      if k == a.key && s.trace[i].Dropped? { GoneStep(k, KS(s, k), a, s.now, u); }
    }
  }

  lemma NewEventStep(s: State, a: Action)
    requires Enabled(s, a) && !a.Restart? && KeyInv(a.key, KS(s, a.key), s.now) && ReadyToRemove(s, a.key)
    requires |Emits(KS(s, a.key), a)| == 1
    ensures |Next(s, a).trace| == |s.trace| + 1 && EventOK(Next(s, a), |s.trace|)
  {
  }

  /** How a key comes to be about to remove the finalizer: it was, or it has just cleared. */
  lemma ReadyBy(ks: KeyState, a: Action, now: nat)
    requires !a.Restart? && KeyEnabled(ks, a) && KeyStep(ks, a, now).pc.AtRemove?
    ensures
      || (KeyStep(ks, a, now).pc == ks.pc && Emits(ks, a) == [])
      || Emits(ks, a) == [Cleared(Owner(a.key, KeyStep(ks, a, now).pc.snap.uid))]
  {
  }

  lemma ReadyStep(s: State, a: Action, k: Key)
    requires ReadyToRemove(s, k) && Enabled(s, a) && !a.Restart?
    ensures ReadyToRemove(Next(s, a), k)
  {
    var ks' := KS(Next(s, a), k);
    var emitted := Emits(KS(s, a.key), a);
    StepFrame(s, a, k);
    EmitsOne(KS(s, a.key), a);
    if ks'.pc.AtRemove? {
      if k == a.key { ReadyBy(KS(s, k), a, s.now); }
      if |emitted| == 1 {
        LastAppend(s.trace, emitted[0], Owner(k, ks'.pc.snap.uid));
        assert s.trace + emitted == s.trace + [emitted[0]];
      } else {
        assert s.trace + emitted == s.trace;
      }
    }
  }

  // -------- all runs --------

  lemma StepKeepsWork(s: State, a: Action)
    requires BaseInv(s) && Enabled(s, a)
    ensures forall k :: WorkInv(Next(s, a), k) && ReadyToRemove(Next(s, a), k)
  {
    forall k
      ensures WorkInv(Next(s, a), k) && ReadyToRemove(Next(s, a), k)
    {
      assert WorkInv(s, k) && ReadyToRemove(s, k);
      if a.Restart? {
        WorkRestart(s, a, k);
        RestartFrame(s, a, k);
      } else {
        WorkStep(s, a, k);
        ReadyStep(s, a, k);
      }
    }
  }

  lemma StepKeepsBase(s: State, a: Action)
    requires BaseInv(s) && Enabled(s, a)
    ensures BaseInv(Next(s, a))
  {
    var s' := Next(s, a);
    StepKeepsWork(s, a);
    if !a.Restart? { RemoteKeeps(s.remote, KS(s, a.key), a, s.cluster); }
    forall i | 0 <= i < |s'.trace|
      ensures EventOK(s', i)
    {
      if i < |s.trace| {
        assert EventOK(s, i) && WorkInv(s, s.trace[i].owner.key);
        OldEventStep(s, a, i);
      } else {
        assert WorkInv(s, a.key) && ReadyToRemove(s, a.key);
        EmitsOne(KS(s, a.key), a);
        NewEventStep(s, a);
      }
    }
  }

  lemma InitBase(cluster: string)
    ensures BaseInv(Init(cluster))
  {
  }

  lemma {:induction false} RunKeepsBase(s: State, run: seq<Action>)
    requires BaseInv(s) && Legal(s, run)
    ensures BaseInv(Exec(s, run))
    decreases |run|
  {
    if run != [] {
      assert LegalFrom(s, run) && Exec(s, run) == ExecFrom(s, run);
      StepKeepsBase(s, run[0]);
      RunKeepsBase(Next(s, run[0]), run[1..]);
    }
  }

  lemma ReachableBase(cluster: string, run: seq<Action>)
    requires Legal(Init(cluster), run)
    ensures BaseInv(Exec(Init(cluster), run))
  {
    InitBase(cluster);
    RunKeepsBase(Init(cluster), run);
  }
}
