/** When no two resource names can ask for one connection, the operator never takes down the
    connection of a live resource, and once everything has settled the AWI server has exactly the
    connections of the live resources. Restarts may list from the past, but not so far back that they
    show the connection of a live resource being given up. */
module Convergence {
  import opened AppConnections
  import opened KeyInvariants
  import opened Protocol
  import opened Safety
  import opened SystemInvariants
  import opened WorkInvariants

  // -------- what users create --------

  /** The resources users create are among the given ones. */
  predicate Respects(a: Action, made: iset<(Key, Spec)>) {
    a.Create? ==> (a.key, a.spec) in made
  }

  predicate UsesOnly(run: seq<Action>, made: iset<(Key, Spec)>) {
    forall i :: 0 <= i < |run| ==> Respects(run[i], made)
  }

  predicate CanBe(made: iset<(Key, Spec)>, k: Key, spec: Spec) {
    (k, spec) in made && KindOf(spec) == k.kind
  }

  /** Two names never ask for one connection, unless none of them can ever send its request. */
  ghost predicate Exclusive(made: iset<(Key, Spec)>) {
    forall k1, s1, k2, s2 ::
      CanBe(made, k1, s1) && CanBe(made, k2, s2) && RemoteIdOf(s1) == RemoteIdOf(s2) && Sendable(s2) ==> k1 == k2
  }

  // -------- what holds of a live connected resource --------

  ghost predicate AllMade(made: iset<(Key, Spec)>, k: Key, v: seq<Version>) {
    forall i :: 0 <= i < |v| && v[i].Present? ==> CanBe(made, k, v[i].obj.spec)
  }

  ghost predicate MadeKey(made: iset<(Key, Spec)>, k: Key, ks: KeyState) {
    AllMade(made, k, ks.versions) && (HasSnap(ks.pc) ==> CanBe(made, k, ks.pc.snap.spec))
  }

  /** Whoever asked for a connection that is there could send its request. */
  ghost predicate Rightful(made: iset<(Key, Spec)>, k: Key, r: RemoteId) {
    exists spec :: CanBe(made, k, spec) && Sendable(spec) && RemoteIdOf(spec) == r
  }

  ghost predicate RightsInv(made: iset<(Key, Spec)>, remote: Remote) {
    forall r :: Up(remote, r) ==> Rightful(made, OwnerOf(remote, r).key, r)
  }

  predicate Owns(remote: Remote, k: Key, r: RemoteId) {
    Up(remote, r) && OwnerOf(remote, r).key == k
  }

  ghost predicate LiveAndConnected(s: State, k: Key) {
    Alive(Current(KS(s, k))) && Connected(s, k)
  }

  /** A live resource whose connect succeeded owns its connection. */
  ghost predicate Keeps(s: State, k: Key) {
    LiveAndConnected(s, k) ==> Owns(s.remote, k, RemoteIdOf(Current(KS(s, k)).obj.spec))
  }

  /** A version between cache and server does no harm to the live object: it does not show the object's
      connection being given up. In a calm window it even is of the object's incarnation, and live. */
  ghost predicate Harmless(calm: bool, v: Version, cur: Object) {
    if calm then Alive(v) && v.obj.uid == cur.uid
    else Terminating(v) ==> RemoteIdOf(v.obj.spec) != RemoteIdOf(cur.spec)
  }

  ghost predicate HarmlessWindow(calm: bool, v: seq<Version>, cur: Object) {
    forall i :: 0 <= i < |v| ==> Harmless(calm, v[i], cur)
  }

  /** And no disconnect of that connection is in progress; none at all if calm. */
  ghost predicate Secure(calm: bool, ks: KeyState) {
    && |ks.versions| > 0 && Current(ks).Present?
    && HarmlessWindow(calm, ks.versions, Current(ks).obj)
    && (Removing(ks.pc) ==> !calm && RemoteIdOf(ks.pc.snap.spec) != RemoteIdOf(Current(ks).obj.spec))
  }

  // -------- restarts --------

  /** A restart leaves the window of every live connected resource harmless; a calm one does not go back. */
  ghost predicate MildStep(calm: bool, s: State, a: Action)
    requires Enabled(s, a)
  {
    a.Restart? ==>
      if calm then FreshStep(Forward, s, a)
      else forall k :: k in s.keys && LiveAndConnected(s, k) ==>
             HarmlessWindow(false, History(s, k)[a.at[k]..], Current(KS(s, k)).obj)
  }

  ghost predicate Mild(calm: bool, s: State, run: seq<Action>)
    requires Legal(s, run)
    decreases |run|, 1
  {
    run == [] || MildFrom(calm, s, run)
  }

  ghost predicate MildFrom(calm: bool, s: State, run: seq<Action>)
    requires run != [] && LegalFrom(s, run)
    decreases |run|, 0
  {
    MildStep(calm, s, run[0]) && Mild(calm, Next(s, run[0]), run[1..])
  }

  lemma {:induction false} NoRestartIsMild(calm: bool, s: State, run: seq<Action>)
    requires Legal(s, run) && NoRestart(run)
    ensures Mild(calm, s, run)
    decreases |run|
  {
    if run != [] {
      assert LegalFrom(s, run) && !run[0].Restart?;
      assert forall i :: 0 <= i < |run[1..]| ==> run[1..][i] == run[i + 1];
      NoRestartIsMild(calm, Next(s, run[0]), run[1..]);
      assert MildFrom(calm, s, run);
    }
  }

  /** A run from the start with such restarts, in which users create only such resources. */
  ghost predicate RunOf(cluster: string, made: iset<(Key, Spec)>, run: seq<Action>) {
    Legal(Init(cluster), run) && Mild(false, Init(cluster), run) && UsesOnly(run, made)
  }

  // -------- the invariant --------

  /** Between listing and disconnecting, the entry that was found is still the key's entry. */
  ghost predicate FoundStands(remote: Remote, ks: KeyState) {
    ks.pc.AtDisconnectApp? ==>
      && ks.pc.snap.spec.App? && KeyOf(ks.pc.snap.spec.app) in remote.apps
      && remote.apps[KeyOf(ks.pc.snap.spec.app)].id == ks.pc.id
  }

  ghost predicate ClaimKey(s: State, made: iset<(Key, Spec)>, k: Key) {
    && AllMade(made, k, History(s, k)) && MadeKey(made, k, KS(s, k))
    && FoundStands(s.remote, KS(s, k))
    && Keeps(s, k)
  }

  ghost predicate SecureInv(calm: bool, s: State) {
    BaseInv(s) && forall k :: LiveAndConnected(s, k) ==> Secure(calm, KS(s, k))
  }

  ghost predicate ClaimInv(s: State, made: iset<(Key, Spec)>) {
    SecureInv(false, s) && RightsInv(made, s.remote) && forall k :: ClaimKey(s, made, k)
  }

  // -------- steps of the key itself --------

  lemma MadeStep(made: iset<(Key, Spec)>, k: Key, ks: KeyState, a: Action, now: nat)
    requires KeyInv(k, ks, now) && !a.Restart? && a.key == k && KeyEnabled(ks, a)
    requires MadeKey(made, k, ks) && Respects(a, made)
    ensures MadeKey(made, k, KeyStep(ks, a, now))
  {
  }

  /** But for creation, the current object keeps its incarnation and specification. */
  lemma CurrentSpec(k: Key, ks: KeyState, a: Action, now: nat)
    requires KeyInv(k, ks, now) && !a.Restart? && a.key == k && KeyEnabled(ks, a) && !a.Create?
    ensures
      var c, c' := Current(ks), Current(KeyStep(ks, a, now));
      c'.Present? ==>
        c.Present? && c.obj.uid == c'.obj.uid && c.obj.spec == c'.obj.spec && (Alive(c') ==> Alive(c))
  {
    CurrentStep(k, ks, a, now);
    if a.Add? && !a.out.ErrLost? { MatchIsCurrent(ks, ks.pc.snap); }
    if a.Remove? && !a.out.ErrLost? { MatchIsCurrent(ks, ks.pc.snap); }
  }

  /** How a live resource comes to be connected: it was, or its connect has just succeeded. */
  lemma ConnectedBy(s: State, a: Action, k: Key)
    requires BaseInv(s) && Enabled(s, a) && !a.Restart? && a.key == k && LiveAndConnected(Next(s, a), k)
    ensures
      var c, c' := Current(KS(s, k)), Current(KS(Next(s, a), k));
      && c.Present? && c.obj.uid == c'.obj.uid && c.obj.spec == c'.obj.spec && Alive(c)
      && (Connected(s, k) || (a.Connect? && a.out.Ok? && KS(s, k).pc.snap.uid == c.obj.uid))
  {
    var s' := Next(s, a);
    var ks, u := KS(s, k), Current(KS(s', k)).obj.uid;
    assert WorkInv(s, k);
    StepFrame(s, a, k);
    EmitsOne(ks, a);
    var i :| 0 <= i < |s'.trace| && s'.trace[i] == Sent(Owner(k, u), true);
    if i < |s.trace| {
      assert s.trace[i] == s'.trace[i] && EventOK(s, i);
    } else {
      assert s'.trace[i] == Emits(ks, a)[0];
    }
    assert !a.Create?;
    CurrentSpec(k, ks, a, s.now);
  }

  /** A live connected resource stays secure. */
  lemma SecureStep(calm: bool, k: Key, ks: KeyState, a: Action, now: nat)
    requires KeyInv(k, ks, now) && !a.Restart? && a.key == k && KeyEnabled(ks, a)
    requires Secure(calm, ks) && Alive(Current(KeyStep(ks, a, now)))
    ensures Secure(calm, KeyStep(ks, a, now))
  {
    VersionsStep(ks, a, now);
    if !a.Create? { CurrentSpec(k, ks, a, now); }
  }

  lemma SecureAfterConnect(calm: bool, k: Key, ks: KeyState, a: Action, now: nat)
    requires KeyInv(k, ks, now) && a.Connect? && a.key == k && KeyEnabled(ks, a)
    requires Alive(Current(ks)) && Current(ks).obj.uid == ks.pc.snap.uid
    requires calm ==> SoundKey(Forward, ks)
    ensures Secure(calm, KeyStep(ks, a, now))
  {
  }

  lemma OwnSecure(calm: bool, s: State, a: Action, k: Key)
    requires SecureInv(calm, s) && (calm ==> SoundInv(Forward, s))
    requires Enabled(s, a) && !a.Restart? && a.key == k && LiveAndConnected(Next(s, a), k)
    ensures Secure(calm, KS(Next(s, a), k))
  {
    var ks := KS(s, k);
    StepFrame(s, a, k);
    ConnectedBy(s, a, k);
    assert WorkInv(s, k) && (calm ==> SoundKey(Forward, ks));
    if Connected(s, k) {
      SecureStep(calm, k, ks, a, s.now);
    } else {
      SecureAfterConnect(calm, k, ks, a, s.now);
    }
  }

  /** Other keys' steps record nothing about this one. */
  lemma OthersRecord(s: State, a: Action, k: Key)
    requires Enabled(s, a) && !a.Restart? && a.key != k && LiveAndConnected(Next(s, a), k)
    ensures KS(Next(s, a), k) == KS(s, k) && LiveAndConnected(s, k)
  {
  }

  /** A cache that starts no earlier than the old one shows a part of what that one did. */
  lemma ForwardWindow(s: State, a: Action, k: Key) returns (at: nat)
    requires Enabled(s, a) && a.Restart? && FreshStep(Forward, s, a) && |KS(s, k).versions| > 0
    ensures at < |KS(s, k).versions| && KS(Next(s, a), k).versions == KS(s, k).versions[at..]
  {
    RestartFrame(s, a, k);
    at := if k in s.keys then a.at[k] - |Past(s, k)| else 0;
  }

  lemma HarmlessShrink(calm: bool, v: seq<Version>, at: nat, cur: Object)
    requires HarmlessWindow(calm, v, cur) && at < |v|
    ensures HarmlessWindow(calm, v[at..], cur)
  {
  }

  lemma SecureRestart(calm: bool, s: State, a: Action, k: Key)
    requires SecureInv(calm, s) && Enabled(s, a) && a.Restart? && MildStep(calm, s, a)
    requires LiveAndConnected(Next(s, a), k)
    ensures Secure(calm, KS(Next(s, a), k))
  {
    assert |KS(s, k).versions| > 0 by { assert WorkInv(s, k); }
    RestartFrame(s, a, k);
    assert Next(s, a).trace == s.trace && LiveAndConnected(s, k);
    if calm {
      var at := ForwardWindow(s, a, k);
      HarmlessShrink(calm, KS(s, k).versions, at, Current(KS(s, k)).obj);
    }
  }

  lemma StepKeepsSecure(calm: bool, s: State, a: Action)
    requires SecureInv(calm, s) && (calm ==> SoundInv(Forward, s)) && Enabled(s, a) && MildStep(calm, s, a)
    ensures SecureInv(calm, Next(s, a))
  {
    StepKeepsBase(s, a);
    forall k | LiveAndConnected(Next(s, a), k)
      ensures Secure(calm, KS(Next(s, a), k))
    {
      if a.Restart? {
        SecureRestart(calm, s, a, k);
      } else if k == a.key {
        OwnSecure(calm, s, a, k);
      } else {
        OthersRecord(s, a, k);
      }
    }
  }

  lemma {:induction false} RunKeepsSecure(calm: bool, s: State, run: seq<Action>)
    requires SecureInv(calm, s) && (calm ==> SoundInv(Forward, s)) && Legal(s, run) && Mild(calm, s, run)
    ensures SecureInv(calm, Exec(s, run))
    decreases |run|
  {
    if run != [] {
      assert LegalFrom(s, run) && Exec(s, run) == ExecFrom(s, run) && MildFrom(calm, s, run);
      StepKeepsSecure(calm, s, run[0]);
      if calm { StepKeepsSoundInv(Forward, s, run[0]); }
      RunKeepsSecure(calm, Next(s, run[0]), run[1..]);
    }
  }

  /** While a resource is live and connected, no disconnect of its connection is in progress on its key,
      nor about to be, whoever else asks for it. If caches never go back, everything between cache and
      server is this incarnation, and no disconnect at all is in progress. */
  lemma LiveIsSecure(calm: bool, cluster: string, run: seq<Action>, k: Key)
    requires Legal(Init(cluster), run) && Mild(calm, Init(cluster), run)
    ensures LiveAndConnected(Exec(Init(cluster), run), k) ==> Secure(calm, KS(Exec(Init(cluster), run), k))
  {
    InitInv(Forward, cluster);
    RunKeepsSecure(calm, Init(cluster), run);
  }

  /** A cache that does not go back harms nobody. */
  lemma ForwardIsMild(s: State, a: Action)
    requires SecureInv(false, s) && Enabled(s, a) && MildStep(true, s, a)
    ensures MildStep(false, s, a)
  {
  }

  lemma {:induction false} ForwardRunIsMild(s: State, run: seq<Action>)
    requires SecureInv(false, s) && Legal(s, run) && Mild(true, s, run)
    ensures Mild(false, s, run)
    decreases |run|
  {
    if run != [] {
      assert LegalFrom(s, run) && MildFrom(true, s, run);
      ForwardIsMild(s, run[0]);
      StepKeepsSecure(false, s, run[0]);
      ForwardRunIsMild(Next(s, run[0]), run[1..]);
      assert MildFrom(false, s, run);
    }
  }

  // -------- steps of other keys --------

  /** What a step of a key takes off the server carries the key's own identity. */
  lemma TakesOnlyMine(remote: Remote, ks: KeyState, a: Action, cluster: string, r: RemoteId)
    requires !a.Restart? && KeyEnabled(ks, a)
    requires Up(remote, r)
    requires a.Connect? || Removing(ks.pc) ==> RemoteIdOf(ks.pc.snap.spec) != r
    requires r.AppConn? && ks.pc.AtDisconnectApp? ==> remote.apps[r.key].id != ks.pc.id
    ensures
      var remote' := RemoteStep(remote, ks, a, cluster);
      Up(remote', r) && OwnerOf(remote', r) == OwnerOf(remote, r)
    ensures r.AppConn? ==> RemoteStep(remote, ks, a, cluster).apps[r.key] == remote.apps[r.key]
  {
  }

  /** A step of one key leaves every connection that another key owns as it is, including an app
      disconnect that uses an identifier listed earlier. */
  lemma SparesOthers(s: State, a: Action, made: iset<(Key, Spec)>, r: RemoteId)
    requires RemoteInv(s.remote) && RightsInv(made, s.remote) && Exclusive(made)
    requires Enabled(s, a) && !a.Restart?
    requires MadeKey(made, a.key, KS(s, a.key)) && FoundStands(s.remote, KS(s, a.key))
    requires Up(s.remote, r) && OwnerOf(s.remote, r).key != a.key
    ensures Up(Next(s, a).remote, r) && OwnerOf(Next(s, a).remote, r) == OwnerOf(s.remote, r)
    ensures r.AppConn? ==> Next(s, a).remote.apps[r.key] == s.remote.apps[r.key]
  {
  }

  /** Whoever asks last owns, if the request arrives or somebody owned before. */
  lemma ConnectOwns(remote: Remote, ks: KeyState, a: Action, cluster: string, r: RemoteId)
    requires a.Connect? && KeyEnabled(ks, a) && RemoteIdOf(ks.pc.snap.spec) == r
    requires !a.out.ErrLost? || Owns(remote, a.key, r)
    ensures Owns(RemoteStep(remote, ks, a, cluster), a.key, r)
  {
  }

  /** A key's own step leaves its connection, unless it disconnects it. */
  lemma OwnKeeps(s: State, a: Action, k: Key)
    requires SecureInv(false, s) && Enabled(s, a) && !a.Restart? && a.key == k
    requires Keeps(s, k) && FoundStands(s.remote, KS(s, k))
    ensures Keeps(Next(s, a), k)
  {
    var s', ks := Next(s, a), KS(s, k);
    StepFrame(s, a, k);
    if LiveAndConnected(s', k) {
      ConnectedBy(s, a, k);
      assert WorkInv(s, k);
      var r := RemoteIdOf(Current(ks).obj.spec);
      if a.Connect? && RemoteIdOf(ks.pc.snap.spec) == r {
        ConnectOwns(s.remote, ks, a, s.cluster, r);
      } else {
        assert Connected(s, k);
        TakesOnlyMine(s.remote, ks, a, s.cluster, r);
      }
    }
  }

  /** How a key comes to stand between listing and disconnecting. */
  lemma FoundBy(ks: KeyState, a: Action, now: nat)
    requires !a.Restart? && KeyEnabled(ks, a) && KeyStep(ks, a, now).pc.AtDisconnectApp?
    ensures
      || (KeyStep(ks, a, now).pc == ks.pc && !a.Connect? && !a.Disconnect? && !a.DisconnectApp?)
      || (a.ListApps? && a.ok && KeyStep(ks, a, now).pc.snap == ks.pc.snap && ks.pc.snap.spec.App?
          && KeyStep(ks, a, now).pc.id == FindId(a.listing, KeyOf(ks.pc.snap.spec.app)) != "")
  {
  }

  lemma OwnFound(s: State, a: Action)
    requires Enabled(s, a) && !a.Restart? && FoundStands(s.remote, KS(s, a.key))
    ensures FoundStands(Next(s, a).remote, KS(Next(s, a), a.key))
  {
    var ks := KS(s, a.key);
    StepFrame(s, a, a.key);
    if KeyStep(ks, a, s.now).pc.AtDisconnectApp? {
      FoundBy(ks, a, s.now);
      if a.ListApps? && a.ok {
        ListingFinds(a.listing, s.remote.apps, KeyOf(ks.pc.snap.spec.app));
      }
    }
  }

  lemma OthersFound(s: State, a: Action, made: iset<(Key, Spec)>, k: Key)
    requires RemoteInv(s.remote) && RightsInv(made, s.remote) && Exclusive(made)
    requires Enabled(s, a) && !a.Restart? && a.key != k
    requires MadeKey(made, a.key, KS(s, a.key)) && FoundStands(s.remote, KS(s, a.key))
    requires MadeKey(made, k, KS(s, k)) && FoundStands(s.remote, KS(s, k))
    ensures FoundStands(Next(s, a).remote, KS(s, k))
  {
    var ks := KS(s, k);
    if ks.pc.AtDisconnectApp? {
      var r := RemoteIdOf(ks.pc.snap.spec);
      assert Rightful(made, OwnerOf(s.remote, r).key, r) && CanBe(made, k, ks.pc.snap.spec);
      SparesOthers(s, a, made, r);
    }
  }

  lemma OthersKeep(s: State, a: Action, made: iset<(Key, Spec)>, k: Key)
    requires RemoteInv(s.remote) && RightsInv(made, s.remote) && Exclusive(made)
    requires Enabled(s, a) && !a.Restart? && a.key != k
    requires MadeKey(made, a.key, KS(s, a.key)) && FoundStands(s.remote, KS(s, a.key))
    requires Keeps(s, k)
    ensures Keeps(Next(s, a), k)
  {
    if LiveAndConnected(Next(s, a), k) {
      OthersRecord(s, a, k);
      SparesOthers(s, a, made, RemoteIdOf(Current(KS(s, k)).obj.spec));
    }
  }

  // -------- every step --------

  /** Where a connection that is there comes from. */
  lemma RightsStep(made: iset<(Key, Spec)>, remote: Remote, ks: KeyState, a: Action, cluster: string)
    requires !a.Restart? && KeyEnabled(ks, a) && RightsInv(made, remote) && MadeKey(made, a.key, ks)
    ensures RightsInv(made, RemoteStep(remote, ks, a, cluster))
  {
    var remote' := RemoteStep(remote, ks, a, cluster);
    forall r | Up(remote', r)
      ensures Rightful(made, OwnerOf(remote', r).key, r)
    {
      if a.Connect? && r == RemoteIdOf(ks.pc.snap.spec) && !a.out.ErrLost? {
        assert CanBe(made, a.key, ks.pc.snap.spec);
      } else {
        assert Up(remote, r) && OwnerOf(remote', r) == OwnerOf(remote, r);
      }
    }
  }

  /** The history of a key has only versions that users may create. */
  lemma HistoryMade(s: State, a: Action, made: iset<(Key, Spec)>, k: Key)
    requires Enabled(s, a) && !a.Restart?
    requires AllMade(made, k, History(s, k)) && AllMade(made, k, KS(Next(s, a), k).versions)
    requires |KS(Next(s, a), k).versions| > 0
    ensures AllMade(made, k, History(Next(s, a), k))
  {
    var v' := KS(Next(s, a), k).versions;
    HistoryStep(s, a, k);
    assert Current(KS(Next(s, a), k)) == v'[|v'| - 1];
  }

  lemma ClaimStep(s: State, a: Action, made: iset<(Key, Spec)>, k: Key)
    requires ClaimInv(s, made) && Exclusive(made) && Enabled(s, a) && Respects(a, made) && !a.Restart?
    ensures ClaimKey(Next(s, a), made, k)
  {
    assert ClaimKey(s, made, k) && ClaimKey(s, made, a.key) && WorkInv(s, k);
    StepFrame(s, a, k);
    if k == a.key {
      MadeStep(made, k, KS(s, k), a, s.now);
      OwnFound(s, a);
      OwnKeeps(s, a, k);
    } else {
      OthersFound(s, a, made, k);
      OthersKeep(s, a, made, k);
    }
    VersionsStep(KS(s, a.key), a, s.now);
    KeyInvStep(s, a, k);
    HistoryMade(s, a, made, k);
  }

  lemma ClaimRestart(s: State, a: Action, made: iset<(Key, Spec)>, k: Key)
    requires Enabled(s, a) && a.Restart? && ClaimKey(s, made, k) && |KS(s, k).versions| > 0
    ensures ClaimKey(Next(s, a), made, k)
  {
    RestartFrame(s, a, k);
    assert Next(s, a).remote == s.remote && Next(s, a).trace == s.trace;
    assert LiveAndConnected(Next(s, a), k) == LiveAndConnected(s, k);
    if k !in s.keys { assert History(Next(s, a), k) == [Absent]; }
  }

  lemma StepKeepsClaims(s: State, a: Action, made: iset<(Key, Spec)>)
    requires ClaimInv(s, made) && Exclusive(made) && Enabled(s, a) && MildStep(false, s, a) && Respects(a, made)
    ensures ClaimInv(Next(s, a), made)
  {
    StepKeepsSecure(false, s, a);
    if !a.Restart? {
      assert ClaimKey(s, made, a.key);
      RightsStep(made, s.remote, KS(s, a.key), a, s.cluster);
    }
    forall k
      ensures ClaimKey(Next(s, a), made, k)
    {
      assert ClaimKey(s, made, k) && WorkInv(s, k);
      if a.Restart? { ClaimRestart(s, a, made, k); } else { ClaimStep(s, a, made, k); }
    }
  }

  lemma {:induction false} RunKeepsClaims(s: State, run: seq<Action>, made: iset<(Key, Spec)>)
    requires ClaimInv(s, made) && Exclusive(made)
    requires Legal(s, run) && Mild(false, s, run) && UsesOnly(run, made)
    ensures ClaimInv(Exec(s, run), made)
    decreases |run|
  {
    if run != [] {
      assert LegalFrom(s, run) && Exec(s, run) == ExecFrom(s, run) && MildFrom(false, s, run);
      assert Respects(run[0], made);
      assert forall i :: 0 <= i < |run[1..]| ==> run[1..][i] == run[i + 1];
      StepKeepsClaims(s, run[0], made);
      RunKeepsClaims(Next(s, run[0]), run[1..], made);
    }
  }

  lemma ReachableClaims(cluster: string, run: seq<Action>, made: iset<(Key, Spec)>)
    requires Exclusive(made) && RunOf(cluster, made, run)
    ensures ClaimInv(Exec(Init(cluster), run), made)
  {
    InitBase(cluster);
    RunKeepsClaims(Init(cluster), run, made);
  }

  // -------- no premature disconnect --------

  /** Every live resource whose connect has succeeded has its connection on the server. */
  ghost predicate AllStayUp(s: State) {
    forall k :: LiveAndConnected(s, k) ==> Up(s.remote, RemoteIdOf(Current(KS(s, k)).obj.spec))
  }

  /** In every reachable state, if no two names can ask for one connection. */
  lemma LiveConnectionsStayUp(cluster: string, run: seq<Action>, made: iset<(Key, Spec)>)
    requires Exclusive(made) && RunOf(cluster, made, run)
    ensures AllStayUp(Exec(Init(cluster), run))
  {
    ReachableClaims(cluster, run, made);
    ClaimedStayUp(Exec(Init(cluster), run), made);
  }

  lemma ClaimedStayUp(s: State, made: iset<(Key, Spec)>)
    requires ClaimInv(s, made)
    ensures AllStayUp(s)
  {
    forall k | LiveAndConnected(s, k)
      ensures Up(s.remote, RemoteIdOf(Current(KS(s, k)).obj.spec))
    {
      assert ClaimKey(s, made, k);
    }
  }

  // -------- quiescence --------

  /** All events delivered, nothing queued, nothing in work. */
  ghost predicate Settled(s: State) {
    forall k :: |KS(s, k).versions| == 1 && !KS(s, k).queued && KS(s, k).pc.Idle?
  }

  ghost predicate Wanted(s: State, r: RemoteId) {
    exists k :: k in s.keys && WantedBy(s.keys[k], r)
  }

  ghost predicate WantedBy(ks: KeyState, r: RemoteId) {
    Alive(Current(ks)) && RemoteIdOf(Current(ks).obj.spec) == r
  }

  /** At rest nothing needs work. */
  lemma SettledIsDone(s: State, k: Key)
    requires BaseInv(s) && Settled(s)
    ensures !NeedsWork(s, k)
  {
    if NeedsWork(s, k) {
      NeededIsScheduled(s, k);
    }
  }

  /** A connection that is there is claimed, and at rest the claimant is not being deleted. */
  lemma UpIsWanted(s: State, r: RemoteId)
    requires BaseInv(s) && NoOrphans(s) && Settled(s) && Up(s.remote, r)
    ensures Wanted(s, r)
  {
    var k :| k in s.keys && Claims(s.keys[k], r);
    SettledIsDone(s, k);
    assert KS(s, k) == s.keys[k] && WantedBy(s.keys[k], r);
  }

  /** A live resource is connected at rest, and what is connected stays up. */
  lemma WantedIsUp(s: State, r: RemoteId)
    requires BaseInv(s) && AllStayUp(s) && Settled(s) && Wanted(s, r)
    ensures Up(s.remote, r)
  {
    var k :| k in s.keys && WantedBy(s.keys[k], r);
    SettledIsDone(s, k);
    assert KS(s, k) == s.keys[k] && LiveAndConnected(s, k);
  }

  ghost predicate Exact(s: State) {
    forall r :: Up(s.remote, r) <==> Wanted(s, r)
  }

  lemma SettledAndSafeIsExact(s: State)
    requires BaseInv(s) && NoOrphans(s) && AllStayUp(s) && Settled(s)
    ensures Exact(s)
  {
    forall r
      ensures Up(s.remote, r) <==> Wanted(s, r)
    {
      if Up(s.remote, r) { UpIsWanted(s, r); }
      if Wanted(s, r) { WantedIsUp(s, r); }
    }
  }

  /** Whenever the system has settled, whatever happened on the way, the server's connections are
      exactly those the live resources ask for. Restarts must leave no orphans either. */
  lemma SettledIsExact(cluster: string, run: seq<Action>, made: iset<(Key, Spec)>)
    requires Exclusive(made) && RunOf(cluster, made, run) && Fresh(SameConnection, Init(cluster), run)
    requires Settled(Exec(Init(cluster), run))
    ensures Exact(Exec(Init(cluster), run))
  {
    LiveConnectionsStayUp(cluster, run, made);
    NoOrphanConnections(cluster, run);
    ReachableBase(cluster, run);
    SettledAndSafeIsExact(Exec(Init(cluster), run));
  }
}
