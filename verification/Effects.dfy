/** What each action writes, in terms of the fields of the stored objects, of the server's entries and of
    the events themselves. */
module Effects {
  import opened AppConnections
  import opened KeyInvariants
  import opened Protocol
  import opened WorkInvariants

  // -------- what may happen --------

  /** Users and the status watcher may act on a stored resource at any time, whatever the operator is doing. Only
      these are excluded: a second resource of the name, a second deletion, taking off the operator's finalizer,
      and adding a finalizer to a resource that is being deleted. */
  lemma UsersMay(ks: KeyState, k: Key, spec: Spec, fins: set<Finalizer>, status: string)
    requires |ks.versions| > 0
    ensures
      KeyEnabled(ks, Create(k, spec, fins)) <==>
        Current(ks).Absent? && (if spec.Net? then k.kind.NetworkDomainConnection? else k.kind.AppConnection?)
    ensures KeyEnabled(ks, UserDelete(k)) <==> Current(ks).Present? && !Current(ks).obj.deleting
    ensures KeyEnabled(ks, StatusWrite(k, status)) <==> Current(ks).Present?
    ensures
      KeyEnabled(ks, UserEdit(k, fins)) <==>
        && Current(ks).Present?
        && forall f :: (f in Current(ks).obj.finalizers && f !in fins ==> f != Awi)
                       && (f in fins && f !in Current(ks).obj.finalizers ==> !Current(ks).obj.deleting)
  {
  }

  /** Every request that a reconcile makes may fail, without having taken effect, and one that may succeed may
      also fail having taken effect. */
  lemma AnyRequestMayFail(s: State, a: Action, out: Outcome)
    requires !a.Restart? && (a.Add? || a.Connect? || a.Disconnect? || a.DisconnectApp? || a.Remove?)
    requires Enabled(s, a) && (a.out.Ok? || out.ErrLost?)
    ensures Enabled(s, a.(out := out))
  {
  }

  /** The process may die at any moment and its new caches may start anywhere in the past. */
  lemma RestartMayHappen(s: State, at: map<Key, nat>)
    ensures
      Enabled(s, Restart(at)) <==>
        forall k :: k in s.keys ==> k in at && at[k] < |Past(s, k)| + |KS(s, k).versions|
  {
  }

  /** A new process knows nothing of what the old one was doing; it queues what it lists. */
  lemma RestartForgets(s: State, at: map<Key, nat>, k: Key)
    requires Enabled(s, Restart(at)) && k in s.keys
    ensures
      var s' := Next(s, Restart(at));
      && s'.up && KS(s', k).pc == Idle
      && (KS(s', k).queued <==> Cached(KS(s', k)).Present?)
      && Cached(KS(s', k)) == (Past(s, k) + KS(s, k).versions)[at[k]]
      && s'.remote == s.remote && s'.trace == s.trace
      && (|KS(s, k).versions| > 0 ==> Current(KS(s', k)) == Current(KS(s, k)))
  {
    RestartFrame(s, Restart(at), k);
  }

  // -------- the stored object --------

  /** Adding the operator's finalizer adds it and changes nothing else that anybody wrote. */
  lemma AddWrites(k: Key, ks: KeyState, a: Action, now: nat)
    requires KeyInv(k, ks, now) && a.Add? && !a.out.ErrLost? && a.key == k && KeyEnabled(ks, a)
    ensures Current(ks).Present? && Current(KeyStep(ks, a, now)).Present?
    ensures
      var o, o' := Current(ks).obj, Current(KeyStep(ks, a, now)).obj;
      && o'.uid == o.uid && o'.spec == o.spec && o'.deleting == o.deleting && o'.status == o.status
      && forall f :: f in o'.finalizers <==> f == Awi || f in o.finalizers
  {
    MatchIsCurrent(ks, ks.pc.snap);
  }

  /** Removing it takes off no other finalizer; the resource is gone if and only if it had none. */
  lemma RemoveWrites(k: Key, ks: KeyState, a: Action, now: nat)
    requires KeyInv(k, ks, now) && a.Remove? && !a.out.ErrLost? && a.key == k && KeyEnabled(ks, a)
    ensures Current(ks).Present?
    ensures Current(KeyStep(ks, a, now)).Absent? <==> forall f :: f in Current(ks).obj.finalizers ==> f == Awi
    ensures
      Current(KeyStep(ks, a, now)).Present? ==>
        var o, o' := Current(ks).obj, Current(KeyStep(ks, a, now)).obj;
        && o'.uid == o.uid && o'.spec == o.spec && o'.deleting == o.deleting && o'.status == o.status
        && forall f :: f in o'.finalizers <==> f != Awi && f in o.finalizers
  {
    MatchIsCurrent(ks, ks.pc.snap);
    var o := ks.pc.snap;
    assert forall f :: f in WithoutAwi(o, now).finalizers <==> f != Awi && f in o.finalizers;
  }

  /** What users and the status watcher write. */
  lemma UserWrites(ks: KeyState, a: Action, now: nat)
    requires (a.Create? || a.UserDelete? || a.UserEdit? || a.StatusWrite?) && KeyEnabled(ks, a)
    ensures
      a.Create? ==>
        Current(KeyStep(ks, a, now)) == Present(Object(now, now, a.spec, a.finalizers, false, ""))
    ensures
      a.StatusWrite? ==>
        Current(KeyStep(ks, a, now)) == Present(Current(ks).obj.(status := a.status, rv := now))
    ensures
      a.UserDelete? ==>
        if Current(ks).obj.finalizers == {} then Current(KeyStep(ks, a, now)).Absent?
        else Current(KeyStep(ks, a, now)) == Present(Current(ks).obj.(deleting := true, rv := now))
    ensures
      a.UserEdit? ==>
        if Current(ks).obj.deleting && a.finalizers == {} then Current(KeyStep(ks, a, now)).Absent?
        else Current(KeyStep(ks, a, now)) == Present(Current(ks).obj.(finalizers := a.finalizers, rv := now))
  {
  }

  /** Every other action, and every refused update, leaves the stored object as it is. */
  lemma OthersWriteNothing(k: Key, ks: KeyState, a: Action, now: nat)
    requires KeyInv(k, ks, now) && ByProcess(a) && a.key == k && KeyEnabled(ks, a)
    requires a.Add? || a.Remove? ==> a.out.ErrLost?
    ensures Current(KeyStep(ks, a, now)) == Current(ks)
  {
  }

  /** Only a user's edit takes off a finalizer that is not the operator's: until then its resource stays. */
  lemma ForeignFinalizersStay(k: Key, ks: KeyState, a: Action, now: nat, f: Finalizer)
    requires KeyInv(k, ks, now) && !a.Restart? && a.key == k && KeyEnabled(ks, a) && !a.UserEdit?
    requires f != Awi && Current(ks).Present? && f in Current(ks).obj.finalizers
    ensures Current(KeyStep(ks, a, now)).Present? && f in Current(KeyStep(ks, a, now)).obj.finalizers
    ensures Current(KeyStep(ks, a, now)).obj.uid == Current(ks).obj.uid
  {
    if a.Add? && !a.out.ErrLost? {
      AddWrites(k, ks, a, now);
    } else if a.Remove? && !a.out.ErrLost? {
      RemoveWrites(k, ks, a, now);
    } else if ByProcess(a) {
      OthersWriteNothing(k, ks, a, now);
    } else {
      UserWrites(ks, a, now);
    }
  }

  predicate NoEdit(run: seq<Action>, k: Key) {
    forall i :: 0 <= i < |run| ==> !(run[i].UserEdit? && run[i].key == k)
  }

  /** Over every run, with crashes and restarts from anywhere: a resource on which somebody else has a
      finalizer stays stored with it, whatever the operator does. */
  lemma {:induction false} OthersKeepTheirResources(s: State, run: seq<Action>, k: Key, f: Finalizer)
    requires BaseInv(s) && Legal(s, run) && NoEdit(run, k)
    requires f != Awi && Current(KS(s, k)).Present? && f in Current(KS(s, k)).obj.finalizers
    ensures
      var c, c' := Current(KS(s, k)), Current(KS(Exec(s, run), k));
      c'.Present? && c'.obj.uid == c.obj.uid && f in c'.obj.finalizers
    decreases |run|
  {
    if run != [] {
      var a := run[0];
      assert LegalFrom(s, run) && Exec(s, run) == ExecFrom(s, run) && WorkInv(s, k);
      assert !(a.UserEdit? && a.key == k);
      if a.Restart? {
        RestartFrame(s, a, k);
      } else {
        StepFrame(s, a, k);
        if a.key == k { ForeignFinalizersStay(k, KS(s, k), a, s.now, f); }
      }
      StepKeepsBase(s, a);
      assert forall i :: 0 <= i < |run[1..]| ==> run[1..][i] == run[i + 1];
      OthersKeepTheirResources(Next(s, a), run[1..], k, f);
    }
  }

  // -------- the queue --------

  /** Delivering an event queues the key if and only if the event is a creation or shows the new object
      being deleted; in particular the event of its disappearance leaves the flag alone. */
  lemma DeliveryQueues(k: Key, ks: KeyState, now: nat)
    requires KeyEnabled(ks, Deliver(k))
    ensures
      var old_, new_ := ks.versions[0], ks.versions[1];
      && (new_.Absent? ==> KeyStep(ks, Deliver(k), now).queued == ks.queued)
      && (new_.Present? && old_.Absent? ==> KeyStep(ks, Deliver(k), now).queued)
      && (new_.Present? && old_.Present? ==>
            KeyStep(ks, Deliver(k), now).queued == (ks.queued || new_.obj.deleting))
    ensures KeyStep(ks, Deliver(k), now).versions == ks.versions[1..] && KeyStep(ks, Deliver(k), now).pc == ks.pc
  {
  }

  /** Taking the key out of the queue clears the flag; a reconcile then looks at what the cache holds, however
      old, and at nothing else: its deletion mark and its finalizers decide. */
  lemma ReadsDecide(k: Key, ks: KeyState, a: Action, now: nat)
    requires (a == Dequeue(k) || a == Get(k, true)) && KeyEnabled(ks, a)
    ensures
      var ks' := KeyStep(ks, a, now);
      && ks'.versions == ks.versions
      && (a.Dequeue? ==> ks'.pc.Dequeued? && !ks'.queued)
      && (a.Get? ==> ks'.queued == ks.queued)
      && (a.Get? ==>
            match ks.versions[0]
            case Absent => ks'.pc.Idle?
            case Present(o) =>
              match (o.deleting, Awi in o.finalizers)
              case (false, false) => ks'.pc == AtAdd(o)
              case (false, true) => ks'.pc == AtConnect(o)
              case (true, true) => ks'.pc == AtDisconnect(o)
              case (true, false) => ks'.pc.Idle?)
  {
  }

  /** A failed request ends the reconcile and queues the key; of the successful ones the connect and the removal
      end it, and do not. */
  lemma OutcomesDecide(k: Key, ks: KeyState, a: Action, now: nat)
    requires ByProcess(a) && a.key == k && KeyEnabled(ks, a) && !a.Deliver? && !a.Dequeue? && !a.Panic?
    ensures
      var ks' := KeyStep(ks, a, now);
      if Failed(a) then ks'.pc.Idle? && ks'.queued
      else
        && ks'.queued == ks.queued
        && (a.Connect? || a.Remove? ==> ks'.pc.Idle?)
        && (a.Add? ==> ks'.pc.AtConnect? && Present(ks'.pc.snap) == Current(ks'))
        && (a.Disconnect? || a.DisconnectApp? ==> ks'.pc == AtRemove(ks.pc.snap))
  {
  }

  /** A request of a reconcile that it sees fail. */
  predicate Failed(a: Action) {
    match a
    case Get(_, ok) => !ok
    case Add(_, out) => !out.Ok?
    case Connect(_, out, _) => !out.Ok?
    case Disconnect(_, out) => !out.Ok?
    case ListApps(_, ok, _) => !ok
    case DisconnectApp(_, out) => !out.Ok?
    case Remove(_, out) => !out.Ok?
    case _ => false
  }

  // -------- the server --------

  /** What an accepted connect of a network domain connection files, and what its disconnect removes. */
  lemma NetRequests(remote: Remote, ks: KeyState, a: Action, cluster: string, source: string, destination: string)
    requires (a.Connect? || a.Disconnect?) && KeyEnabled(ks, a) && ks.pc.snap.spec == Net(source, destination)
    ensures
      var remote', id := RemoteStep(remote, ks, a, cluster), source + ":" + destination;
      && remote'.apps == remote.apps
      && (forall x :: x != id ==> (x in remote'.nets <==> x in remote.nets))
      && (forall x :: x != id && x in remote.nets ==> remote'.nets[x] == remote.nets[x])
      && (a.out.ErrLost? ==> remote' == remote)
      && (a.Connect? && !a.out.ErrLost? ==> id in remote'.nets && remote'.nets[id] == Owner(a.key, ks.pc.snap.uid))
      && (a.Disconnect? && !a.out.ErrLost? ==> id !in remote'.nets)
  {
  }

  /** What an accepted connect of an app connection files. */
  lemma AppConnects(remote: Remote, ks: KeyState, a: Action, cluster: string, spec: AppSpec)
    requires a.Connect? && KeyEnabled(ks, a) && ks.pc.snap.spec == App(spec)
    ensures
      var remote', p := RemoteStep(remote, ks, a, cluster), AppKey(spec.matchName, spec.name);
      && remote'.nets == remote.nets
      && (forall x :: x != p ==> (x in remote'.apps <==> x in remote.apps))
      && (forall x :: x != p && x in remote.apps ==> remote'.apps[x] == remote.apps[x])
      && (a.out.ErrLost? ==> remote' == remote)
      && (!a.out.ErrLost? ==>
            && p in remote'.apps
            && remote'.apps[p] == AppEntry(a.id, DefaultCluster(spec, cluster), Owner(a.key, ks.pc.snap.uid)))
  {
  }

  /** What an accepted app disconnect removes: the entries with the identifier, and no others. */
  lemma AppDisconnects(remote: Remote, ks: KeyState, a: Action, cluster: string)
    requires a.DisconnectApp? && KeyEnabled(ks, a)
    ensures
      var remote' := RemoteStep(remote, ks, a, cluster);
      && remote'.nets == remote.nets
      && (a.out.ErrLost? ==> remote' == remote)
      && (forall p :: p in remote'.apps ==> p in remote.apps && remote'.apps[p] == remote.apps[p])
      && (!a.out.ErrLost? ==> forall p :: p in remote.apps ==> (p in remote'.apps <==> remote.apps[p].id != ks.pc.id))
  {
  }

  lemma OthersAskNothing(remote: Remote, ks: KeyState, a: Action, cluster: string)
    requires !a.Restart? && KeyEnabled(ks, a) && !a.Connect? && !a.Disconnect? && !a.DisconnectApp?
    ensures RemoteStep(remote, ks, a, cluster) == remote
  {
  }

  // -------- the record --------

  /** Every connect that is sent is recorded, with whether it was seen to succeed, and nothing else is
      recorded as one. */
  lemma SentIsRecorded(ks: KeyState, a: Action)
    requires !a.Restart? && KeyEnabled(ks, a)
    ensures a.Connect? ==> Emits(ks, a) == [Sent(Owner(a.key, ks.pc.snap.uid), a.out == Ok)]
    ensures (exists e :: e in Emits(ks, a) && e.Sent?) ==> a.Connect?
  {
  }

  /** When a disconnect is recorded the connection has just been taken off the server, or was not there. */
  lemma ClearedIsGone(remote: Remote, ks: KeyState, a: Action, cluster: string, ow: Owner)
    requires RemoteInv(remote) && !a.Restart? && KeyEnabled(ks, a) && RemoteEnabled(remote, ks, a)
    requires Cleared(ow) in Emits(ks, a)
    ensures ow == Owner(a.key, ks.pc.snap.uid)
    ensures
      var remote' := RemoteStep(remote, ks, a, cluster);
      if a.DisconnectApp? then forall p :: p in remote'.apps ==> remote'.apps[p].id != ks.pc.id
      else !Up(remote', RemoteIdOf(ks.pc.snap.spec))
  {
    if a.ListApps? { ListingFinds(a.listing, remote.apps, KeyOf(ks.pc.snap.spec.app)); }
  }
}
