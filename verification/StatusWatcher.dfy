/** The two passes of the status watcher: network domain connections through an index by
    identifier, app connections by a scan for every resource. */
module StatusWatcher {
  import opened AppConnections
  import opened Names
  import opened Wrappers
  import Protocol

  // -------- resources whose status is written --------

  /** A resource with what the watcher reads of its spec and the status it writes. */
  datatype Cr<P, S> = Cr(spec: P, status: S)

  datatype ConnSpec = ConnSpec(source: string, destination: string)

  datatype ConnStatus = ConnStatus(state: string, connectionId: string)

  /** A status update that was requested, and whether it was answered with an error. */
  datatype Update<S> = Update(key: string, status: S, err: bool)

  class Resources<P(==,0), S(==,0)> {
    var items: map<string, Cr<P, S>>
    /** The status updates requested, in order. */
    ghost var updates: seq<Update<S>>
    /** The answers to list requests, in order. */
    ghost var answers: seq<seq<(string, Cr<P, S>)>>
    /** How many lists have failed. */
    ghost var faults: nat
    /** Lists are current and nobody else writes. */
    const exact: bool

    constructor (items: map<string, Cr<P, S>>, exact: bool)
      ensures this.items == items && this.exact == exact && updates == [] && answers == [] && faults == 0
    {
      this.items := items;
      this.exact := exact;
      updates := [];
      answers := [];
      faults := 0;
    }

    /** The cached resources, each once, in some order. */
    method List() returns (r: Result<seq<(string, Cr<P, S>)>, ()>)
      modifies `faults, `answers
      ensures r.Success? ==> OnceEach(r.value)
      ensures exact && r.Success? ==> Lists(r.value, items)
      ensures faults == old(faults) + if r.Failure? then 1 else 0
      ensures answers == old(answers) + if r.Success? then [r.value] else []
    {
      var failed: bool := *;
      if failed {
        faults := faults + 1;
        return Failure(());
      }
      var snapshot: map<string, Cr<P, S>> := *;
      if exact { snapshot := items; }
      var list: seq<(string, Cr<P, S>)> := [];
      var todo := snapshot.Keys;
      while todo != {}
        invariant todo <= snapshot.Keys && faults == old(faults) && answers == old(answers)
        invariant OnceEach(list) && Lists(list, snapshot - todo)
        decreases todo
      {
        var k :| k in todo;
        ghost var before := list;
        list := list + [(k, snapshot[k])];
        assert forall i :: 0 <= i < |before| ==> list[i] == before[i];
        todo := todo - {k};
        ListsMore(before, k, snapshot[k], snapshot - todo);
      }
      assert snapshot - todo == snapshot;
      answers := answers + [list];
      r := Success(list);
    }

    /** Accepted, refused, or accepted with the answer lost. */
    method UpdateStatus(k: string, status: S) returns (err: bool)
      modifies `items, `updates
      ensures updates == old(updates) + [Update(k, status, err)]
      ensures items == old(items) || (k in old(items) && items == old(items)[k := old(items)[k].(status := status)])
      ensures !err ==> k in old(items) && items == old(items)[k := old(items)[k].(status := status)]
    {
      var effective: bool := *;
      err := *;
      if k !in items {
        err := true;
      } else if effective || !err {
        items := items[k := items[k].(status := status)];
      }
      updates := updates + [Update(k, status, err)];
    }
  }

  ghost predicate OnceEach<T>(list: seq<(string, T)>) {
    forall i, j :: 0 <= i < j < |list| ==> list[i].0 != list[j].0
  }

  ghost predicate Lists<T>(list: seq<(string, T)>, m: map<string, T>) {
    && (forall i :: 0 <= i < |list| ==> list[i].0 in m && m[list[i].0] == list[i].1)
    && (forall k :: k in m ==> Mentions(list, k))
  }

  ghost predicate Mentions<T>(list: seq<(string, T)>, k: string) {
    exists i :: 0 <= i < |list| && list[i].0 == k
  }

  lemma ListsMore<T>(list: seq<(string, T)>, k: string, t: T, m: map<string, T>)
    requires k in m && m[k] == t && Lists(list, m - {k})
    ensures Lists(list + [(k, t)], m)
  {
    var more := list + [(k, t)];
    forall x | x in m
      ensures Mentions(more, x)
    {
      if x == k {
        assert more[|list|].0 == k;
      } else {
        assert x in m - {k} && Mentions(list, x);
        var i :| 0 <= i < |list| && list[i].0 == x;
        assert more[i].0 == x;
      }
    }
  }

  // -------- one pass --------

  predicate Asked<S>(log: seq<Update<S>>, k: string) {
    exists i :: 0 <= i < |log| && log[i].key == k
  }

  predicate Refused<S>(log: seq<Update<S>>, k: string) {
    exists i :: 0 <= i < |log| && log[i].key == k && log[i].err
  }

  /** No key twice. */
  predicate Once<S>(log: seq<Update<S>>) {
    forall i, j :: 0 <= i < j < |log| ==> log[i].key != log[j].key
  }

  predicate Stale<P, S(==)>(wanted: P -> Option<S>, cr: Cr<P, S>) {
    wanted(cr.spec).Some? && wanted(cr.spec).value != cr.status
  }

  /** What the updates of a pass do to one resource: it is as it was if no update was requested, it
      has the wanted status if one was requested without an error, and one or the other if the
      request failed. */
  ghost predicate Updated<P, S>(wanted: P -> Option<S>, before: Cr<P, S>, after: Cr<P, S>, log: seq<Update<S>>,
                                k: string) {
    && after.spec == before.spec
    && (after == before || Some(after.status) == wanted(before.spec))
    && (!Asked(log, k) ==> after == before)
    && (Asked(log, k) && !Refused(log, k) ==> Some(after.status) == wanted(before.spec))
  }

  /** What a pass does, given the status wanted for a resource (`None`: leave it alone): it asks
      once for every resource whose status is not the wanted one, and writes nothing else. */
  ghost predicate Passed<P, S>(wanted: P -> Option<S>, before: map<string, Cr<P, S>>, after: map<string, Cr<P, S>>,
                               log: seq<Update<S>>) {
    && after.Keys == before.Keys
    && Once(log)
    && (forall k :: Asked(log, k) <==> k in before && Stale(wanted, before[k]))
    && (forall k :: k in before ==> Updated(wanted, before[k], after[k], log, k))
  }

  /** A second pass against the same server asks only for resources whose update failed before, and
      none of the others changes. */
  lemma SecondPass<P, S>(wanted: P -> Option<S>, m0: map<string, Cr<P, S>>, m1: map<string, Cr<P, S>>,
                         log1: seq<Update<S>>, m2: map<string, Cr<P, S>>, log2: seq<Update<S>>)
    requires Passed(wanted, m0, m1, log1) && Passed(wanted, m1, m2, log2)
    ensures forall k :: Asked(log2, k) ==> Refused(log1, k)
    ensures forall k :: k in m1 && !Refused(log1, k) ==> m2[k] == m1[k]
  {
  }

  /** What the pass has asked for after part of the list, however stale the list is: once for each listed
      resource whose listed status is not the wanted one, and for the wanted one. */
  ghost predicate AskedRight<P, S>(wanted: P -> Option<S>, list: seq<(string, Cr<P, S>)>, n: nat, log: seq<Update<S>>)
    requires n <= |list|
  {
    && Once(log)
    && (forall i :: 0 <= i < |log| ==> AskedFor(wanted, list, n, log[i].key, log[i].status))
    && (forall i :: 0 <= i < n && Stale(wanted, list[i].1) ==> Asked(log, list[i].0))
  }

  ghost predicate AskedFor<P, S>(wanted: P -> Option<S>, list: seq<(string, Cr<P, S>)>, n: nat, k: string, status: S)
    requires n <= |list|
  {
    exists i :: 0 <= i < n && list[i].0 == k && Stale(wanted, list[i].1) && wanted(list[i].1.spec) == Some(status)
  }

  /** A listed resource that is left alone. */
  lemma RightSkip<P, S>(wanted: P -> Option<S>, list: seq<(string, Cr<P, S>)>, n: nat, log: seq<Update<S>>)
    requires n < |list| && AskedRight(wanted, list, n, log) && !Stale(wanted, list[n].1)
    ensures AskedRight(wanted, list, n + 1, log)
  {
    forall i | 0 <= i < |log|
      ensures AskedFor(wanted, list, n + 1, log[i].key, log[i].status)
    {
      assert AskedFor(wanted, list, n, log[i].key, log[i].status);
    }
  }

  lemma AskedMore<S>(log: seq<Update<S>>, u: Update<S>, k: string)
    ensures Asked(log + [u], k) <==> Asked(log, k) || k == u.key
    ensures Refused(log + [u], k) <==> Refused(log, k) || (k == u.key && u.err)
  {
    var more := log + [u];
    assert more[|log|] == u;
    assert forall i :: 0 <= i < |log| ==> more[i] == log[i];
  }

  /** A listed resource for which an update is requested. */
  lemma RightAsk<P, S>(wanted: P -> Option<S>, list: seq<(string, Cr<P, S>)>, n: nat, log: seq<Update<S>>,
                       u: Update<S>)
    requires n < |list| && AskedRight(wanted, list, n, log) && OnceEach(list) && Stale(wanted, list[n].1)
    requires u.key == list[n].0 && Some(u.status) == wanted(list[n].1.spec)
    ensures !Asked(log, list[n].0)
    ensures AskedRight(wanted, list, n + 1, log + [u])
  {
    var more := log + [u];
    forall i | 0 <= i < |log|
      ensures log[i].key != u.key && AskedFor(wanted, list, n + 1, log[i].key, log[i].status)
    {
      assert AskedFor(wanted, list, n, log[i].key, log[i].status);
    }
    assert AskedFor(wanted, list, n + 1, u.key, u.status);
    forall i | 0 <= i < n + 1 && Stale(wanted, list[i].1)
      ensures Asked(more, list[i].0)
    {
      AskedMore(log, u, list[i].0);
    }
  }

  /** The stored resources after part of the list. */
  ghost predicate PassedSoFar<P, S>(wanted: P -> Option<S>, before: map<string, Cr<P, S>>, now: map<string, Cr<P, S>>,
                                    log: seq<Update<S>>) {
    && now.Keys == before.Keys
    && (forall k :: k in before ==> Updated(wanted, before[k], now[k], log, k))
  }

  /** A resource whose status is updated. */
  lemma AskFor<P, S>(wanted: P -> Option<S>, before: map<string, Cr<P, S>>, now: map<string, Cr<P, S>>,
                     log: seq<Update<S>>, now': map<string, Cr<P, S>>, u: Update<S>)
    requires PassedSoFar(wanted, before, now, log) && !Asked(log, u.key)
    requires u.key in before && Some(u.status) == wanted(before[u.key].spec)
    requires (now' == now && u.err) || (u.key in now && now' == now[u.key := now[u.key].(status := u.status)])
    ensures PassedSoFar(wanted, before, now', log + [u])
  {
    forall x | x in before
      ensures Updated(wanted, before[x], now'[x], log + [u], x)
    {
      assert Updated(wanted, before[x], now[x], log, x);
      AskedMore(log, u, x);
    }
  }

  /** The whole list. */
  lemma PassEnds<P, S>(wanted: P -> Option<S>, before: map<string, Cr<P, S>>, now: map<string, Cr<P, S>>,
                       list: seq<(string, Cr<P, S>)>, log: seq<Update<S>>)
    requires PassedSoFar(wanted, before, now, log) && Lists(list, before)
    requires AskedRight(wanted, list, |list|, log)
    ensures Passed(wanted, before, now, log)
  {
    forall k | Asked(log, k)
      ensures k in before && Stale(wanted, before[k])
    {
      var i :| 0 <= i < |log| && log[i].key == k;
      assert AskedFor(wanted, list, |list|, log[i].key, log[i].status);
    }
    forall k | k in before && Stale(wanted, before[k])
      ensures Asked(log, k)
    {
      assert Mentions(list, k);
    }
  }

  /** One more update was requested. */
  predicate Asks<S(==)>(log: seq<Update<S>>, log': seq<Update<S>>, k: string, status: S) {
    |log'| == |log| + 1 && log <= log' && log'[|log|].key == k && log'[|log|].status == status
  }

  /** The tail of both passes: nothing to do if the status is the wanted one, else one update. */
  method Refresh<P(==,0), S(==,0)>(store: Resources<P, S>, k: string, crd: Cr<P, S>, status: S,
                                   ghost wanted: P -> Option<S>, ghost before: map<string, Cr<P, S>>,
                                   ghost list: seq<(string, Cr<P, S>)>, ghost n: nat, ghost start: nat)
    requires n < |list| && list[n] == (k, crd) && wanted(crd.spec) == Some(status) && start <= |store.updates|
    requires OnceEach(list) && AskedRight(wanted, list, n, store.updates[start..])
    requires store.exact ==>
               Lists(list, before) && PassedSoFar(wanted, before, store.items, store.updates[start..])
    modifies store`items, store`updates
    ensures old(store.updates) <= store.updates
    ensures if crd.status == status then store.updates == old(store.updates)
            else Asks(old(store.updates), store.updates, k, status)
    ensures AskedRight(wanted, list, n + 1, store.updates[start..])
    ensures store.exact ==> PassedSoFar(wanted, before, store.items, store.updates[start..])
  {
    ghost var now, log := store.items, store.updates[start..];
    if crd.status == status {
      RightSkip(wanted, list, n, log);
      return;
    }
    var err := store.UpdateStatus(k, status);
    ghost var u := Update(k, status, err);
    RightAsk(wanted, list, n, log, u);
    assert store.updates[start..] == log + [u];
    if store.exact { AskFor(wanted, before, now, log, store.items, u); }
  }

  /** What the pass has asked of one listed resource, by the wanted status: an update to it if it has another
      one, and nothing if it has it or there is none. */
  lemma AskedOfOne<P, S>(wanted: P -> Option<S>, list: seq<(string, Cr<P, S>)>, log: seq<Update<S>>, x: nat)
    requires OnceEach(list) && AskedRight(wanted, list, |list|, log) && x < |list|
    ensures wanted(list[x].1.spec).None? ==> !Asked(log, list[x].0)
    ensures
      wanted(list[x].1.spec).Some? ==>
        var status := wanted(list[x].1.spec).value;
        if list[x].1.status == status then !Asked(log, list[x].0) else AskedTo(log, list[x].0, status)
  {
    var (k, cr) := list[x];
    forall i | 0 <= i < |log| && log[i].key == k
      ensures Stale(wanted, cr) && wanted(cr.spec) == Some(log[i].status)
    {
      assert AskedFor(wanted, list, |list|, log[i].key, log[i].status);
    }
    if Stale(wanted, cr) {
      assert Asked(log, k);
    }
  }

  /** An update of the resource to the status was requested. */
  ghost predicate AskedTo<S>(log: seq<Update<S>>, k: string, status: S) {
    exists i :: 0 <= i < |log| && log[i].key == k && log[i].status == status
  }

  // -------- network domain connections --------

  datatype ConnInfo = ConnInfo(id: string, status: int)

  /** Protobuf enumeration names; an unknown number has the empty name. */
  function StatusName(names: map<int, string>, status: int): string {
    if status in names then names[status] else ""
  }

  /** The last listed connection with an identifier, found by searching backward. */
  function LastMatch(connections: seq<ConnInfo>, id: string): (r: Option<ConnInfo>)
    ensures r.Some? ==> r.value in connections && r.value.id == id
    ensures r.None? <==> forall c :: c in connections ==> c.id != id
  {
    if connections == [] then None
    else if connections[|connections| - 1].id == id then Some(connections[|connections| - 1])
    else LastMatch(connections[..|connections| - 1], id)
  }

  /** The last match in terms of positions. */
  lemma {:induction false} LastMatchAt(connections: seq<ConnInfo>, id: string, i: nat)
    requires i < |connections| && connections[i].id == id
    requires forall j :: i < j < |connections| ==> connections[j].id != id
    ensures LastMatch(connections, id) == Some(connections[i])
    decreases |connections|
  {
    if i < |connections| - 1 {
      LastMatchAt(connections[..|connections| - 1], id, i);
    }
  }

  ghost function WantedConn(connections: seq<ConnInfo>, names: map<int, string>): ConnSpec -> Option<ConnStatus> {
    (spec: ConnSpec) =>
      var id := ConnectionId(spec.source, spec.destination);
      match LastMatch(connections, id)
      case None => None
      case Some(c) => Some(ConnStatus(StatusName(names, c.status), id))
  }

  /** The status wanted for a resource is that of the last listed connection which has the identifier that
      its connect files, and none if there is no such connection. */
  lemma WantedConnAt(connections: seq<ConnInfo>, names: map<int, string>, spec: ConnSpec)
    ensures
      var id := Protocol.NetId(Protocol.Net(spec.source, spec.destination));
      && ((forall j :: 0 <= j < |connections| ==> connections[j].id != id) ==>
            WantedConn(connections, names)(spec) == None)
      && (forall i :: LastFor(connections, id, i) ==>
            WantedConn(connections, names)(spec) ==
              Some(ConnStatus(if connections[i].status in names then names[connections[i].status] else "", id)))
  {
    var id := Protocol.NetId(Protocol.Net(spec.source, spec.destination));
    forall i | LastFor(connections, id, i)
      ensures LastMatch(connections, id) == Some(connections[i])
    {
      LastMatchAt(connections, id, i);
    }
  }

  /** The last listed connection with the identifier is at this position. */
  ghost predicate LastFor(connections: seq<ConnInfo>, id: string, i: int) {
    0 <= i < |connections| && connections[i].id == id && forall j :: i < j < |connections| ==> connections[j].id != id
  }

  /** What a pass must have asked of a listed resource, by the positions of the connections: if some have the
      identifier, the name of the last one's status and the identifier, unless the resource has them; else nothing. */
  ghost predicate ConnAsked(connections: seq<ConnInfo>, names: map<int, string>, cr: Cr<ConnSpec, ConnStatus>,
                            log: seq<Update<ConnStatus>>, k: string) {
    var id := Protocol.NetId(Protocol.Net(cr.spec.source, cr.spec.destination));
    && ((forall j :: 0 <= j < |connections| ==> connections[j].id != id) ==> !Asked(log, k))
    && (forall i :: LastFor(connections, id, i) ==>
          var name := if connections[i].status in names then names[connections[i].status] else "";
          if cr.status == ConnStatus(name, id) then !Asked(log, k) else AskedTo(log, k, ConnStatus(name, id)))
  }

  /** The index the pass builds. */
  method Index(connections: seq<ConnInfo>) returns (index: map<string, ConnInfo>)
    ensures forall id :: LastMatch(connections, id) == if id in index then Some(index[id]) else None
  {
    index := map[];
    var i := 0;
    while i < |connections|
      invariant 0 <= i <= |connections|
      invariant forall id :: LastMatch(connections[..i], id) == if id in index then Some(index[id]) else None
    {
      index := index[connections[i].id := connections[i]];
      assert connections[..i + 1][..i] == connections[..i];
      i := i + 1;
    }
    assert connections[..i] == connections;
  }

  /** The look-up for one resource. */
  method CheckIndexed(ghost connections: seq<ConnInfo>, connectionsMap: map<string, ConnInfo>, names: map<int, string>,
                      store: Resources<ConnSpec, ConnStatus>, k: string, crd: Cr<ConnSpec, ConnStatus>,
                      ghost wanted: ConnSpec -> Option<ConnStatus>, ghost before: map<string, Cr<ConnSpec, ConnStatus>>,
                      ghost list: seq<(string, Cr<ConnSpec, ConnStatus>)>, ghost n: nat, ghost start: nat)
    requires forall id :: LastMatch(connections, id) == if id in connectionsMap then Some(connectionsMap[id]) else None
    requires n < |list| && list[n] == (k, crd) && start <= |store.updates|
    requires wanted == WantedConn(connections, names)
    requires OnceEach(list) && AskedRight(wanted, list, n, store.updates[start..])
    requires store.exact ==>
               Lists(list, before) && PassedSoFar(wanted, before, store.items, store.updates[start..])
    modifies store`items, store`updates
    ensures old(store.updates) <= store.updates
    ensures AskedRight(wanted, list, n + 1, store.updates[start..])
    ensures store.exact ==> PassedSoFar(wanted, before, store.items, store.updates[start..])
  {
    var id := ConnectionId(crd.spec.source, crd.spec.destination);
    assert LastMatch(connections, id) == if id in connectionsMap then Some(connectionsMap[id]) else None;
    if id !in connectionsMap {
      RightSkip(wanted, list, n, store.updates[start..]);
      return;
    }
    var status := ConnStatus(StatusName(names, connectionsMap[id].status), id);
    Refresh(store, k, crd, status, wanted, before, list, n, start);
  }

  /** The pass over network domain connections refines a backward search for each of them.
      `crds` is the list it got, which may be stale. */
  method CheckConnections(connections: seq<ConnInfo>, names: map<int, string>, store: Resources<ConnSpec, ConnStatus>)
    returns (listed: bool, ghost crds: seq<(string, Cr<ConnSpec, ConnStatus>)>)
    modifies store
    ensures old(store.updates) <= store.updates
    ensures OnceEach(crds)
    ensures AskedRight(WantedConn(connections, names), crds, |crds|, store.updates[|old(store.updates)|..])
    ensures forall x :: 0 <= x < |crds| ==>
              ConnAsked(connections, names, crds[x].1, store.updates[|old(store.updates)|..], crds[x].0)
    ensures listed && store.exact ==>
              Passed(WantedConn(connections, names), old(store.items), store.items,
                     store.updates[|old(store.updates)|..])
    ensures !listed ==> store.items == old(store.items) && store.updates == old(store.updates)
    ensures listed <==> store.faults == old(store.faults)
    ensures listed ==> store.answers == old(store.answers) + [crds]
  {
    var connectionsMap := Index(connections);
    var list := store.List();
    if list.Failure? {
      return false, [];
    }
    listed, crds := true, list.value;
    ghost var wanted := WantedConn(connections, names);
    ghost var before, start := store.items, store.updates;
    var i := 0;
    while i < |list.value|
      invariant 0 <= i <= |list.value|
      invariant start <= store.updates && store.faults == old(store.faults)
      invariant store.answers == old(store.answers) + [crds]
      invariant AskedRight(wanted, list.value, i, store.updates[|start|..])
      invariant store.exact ==> PassedSoFar(wanted, before, store.items, store.updates[|start|..])
    {
      var (k, crd) := list.value[i];
      CheckIndexed(connections, connectionsMap, names, store, k, crd, wanted, before, list.value, i, |start|);
      i := i + 1;
    }
    ConnsAsked(connections, names, list.value, store.updates[|start|..]);
    if store.exact {
      PassEnds(wanted, before, store.items, list.value, store.updates[|start|..]);
    }
  }

  lemma ConnsAsked(connections: seq<ConnInfo>, names: map<int, string>, list: seq<(string, Cr<ConnSpec, ConnStatus>)>,
                   log: seq<Update<ConnStatus>>)
    requires OnceEach(list) && AskedRight(WantedConn(connections, names), list, |list|, log)
    ensures forall x :: 0 <= x < |list| ==> ConnAsked(connections, names, list[x].1, log, list[x].0)
  {
    forall x | 0 <= x < |list|
      ensures ConnAsked(connections, names, list[x].1, log, list[x].0)
    {
      WantedConnAt(connections, names, list[x].1.spec);
      AskedOfOne(WantedConn(connections, names), list, log, x);
    }
  }

  // -------- app connections --------

  ghost function WantedApp(entries: seq<AppInfo>, names: map<int, string>): AppSpec -> Option<string> {
    (spec: AppSpec) =>
      match FirstMatch(entries, KeyOf(spec))
      case None => None
      case Some(e) => Some(StatusName(names, e.status))
  }

  /** The first listed entry with the match name and the name of the request is at this position. */
  ghost predicate FirstFor(entries: seq<AppInfo>, spec: AppSpec, i: int) {
    && 0 <= i < |entries| && entries[i].config.matchName == spec.matchName && entries[i].config.name == spec.name
    && NoneBefore(entries, spec, i)
  }

  ghost predicate NoneBefore(entries: seq<AppInfo>, spec: AppSpec, n: int)
    requires n <= |entries|
  {
    forall j :: 0 <= j < n ==> entries[j].config.matchName != spec.matchName || entries[j].config.name != spec.name
  }

  /** The status wanted for a resource is that of the first listed entry which agrees with its request in match
      name and name, and none if there is no such entry. */
  lemma WantedAppAt(entries: seq<AppInfo>, names: map<int, string>, spec: AppSpec)
    ensures NoneBefore(entries, spec, |entries|) ==> WantedApp(entries, names)(spec) == None
    ensures
      forall i :: FirstFor(entries, spec, i) ==>
        WantedApp(entries, names)(spec) ==
          Some(if entries[i].status in names then names[entries[i].status] else "")
  {
    forall i | FirstFor(entries, spec, i)
      ensures FirstMatch(entries, KeyOf(spec)) == Some(entries[i])
    {
      FirstMatchAt(entries, KeyOf(spec), i);
    }
  }

  /** What a pass must have asked of a listed resource, by the positions of the entries: if some agree with it
      in match name and name, the name of the first one's status, unless the resource has it; else nothing. */
  ghost predicate AppAsked(entries: seq<AppInfo>, names: map<int, string>, cr: Cr<AppSpec, string>,
                           log: seq<Update<string>>, k: string) {
    && (NoneBefore(entries, cr.spec, |entries|) ==> !Asked(log, k))
    && (forall i :: FirstFor(entries, cr.spec, i) ==>
          var name := if entries[i].status in names then names[entries[i].status] else "";
          if cr.status == name then !Asked(log, k) else AskedTo(log, k, name))
  }

  lemma AppsAsked(entries: seq<AppInfo>, names: map<int, string>, list: seq<(string, Cr<AppSpec, string>)>,
                  log: seq<Update<string>>)
    requires OnceEach(list) && AskedRight(WantedApp(entries, names), list, |list|, log)
    ensures forall x :: 0 <= x < |list| ==> AppAsked(entries, names, list[x].1, log, list[x].0)
  {
    forall x | 0 <= x < |list|
      ensures AppAsked(entries, names, list[x].1, log, list[x].0)
    {
      WantedAppAt(entries, names, list[x].1.spec);
      AskedOfOne(WantedApp(entries, names), list, log, x);
    }
  }

  /** The scan for one resource, up to the first match. */
  method CheckOne(entries: seq<AppInfo>, names: map<int, string>, store: Resources<AppSpec, string>, k: string,
                  crd: Cr<AppSpec, string>,
                  ghost wanted: AppSpec -> Option<string>, ghost before: map<string, Cr<AppSpec, string>>,
                  ghost list: seq<(string, Cr<AppSpec, string>)>, ghost n: nat, ghost start: nat)
    requires n < |list| && list[n] == (k, crd) && start <= |store.updates|
    requires wanted == WantedApp(entries, names)
    requires OnceEach(list) && AskedRight(wanted, list, n, store.updates[start..])
    requires store.exact ==>
               Lists(list, before) && PassedSoFar(wanted, before, store.items, store.updates[start..])
    modifies store`items, store`updates
    ensures old(store.updates) <= store.updates
    ensures NoneBefore(entries, crd.spec, |entries|) ==> store.updates == old(store.updates)
    ensures
      forall i :: FirstFor(entries, crd.spec, i) ==>
        var name := if entries[i].status in names then names[entries[i].status] else "";
        if crd.status == name then store.updates == old(store.updates)
        else Asks(old(store.updates), store.updates, k, name)
    ensures AskedRight(wanted, list, n + 1, store.updates[start..])
    ensures store.exact ==> PassedSoFar(wanted, before, store.items, store.updates[start..])
  {
    var j := 0;
    while j < |entries|
      invariant 0 <= j <= |entries|
      invariant store.updates == old(store.updates) && NoneBefore(entries, crd.spec, j)
      invariant store.items == old(store.items)
    {
      if !(crd.spec.matchName == entries[j].config.matchName) || !(crd.spec.name == entries[j].config.name) {
        j := j + 1;
        continue;
      }
      assert FirstFor(entries, crd.spec, j);
      WantedAppAt(entries, names, crd.spec);
      Refresh(store, k, crd, StatusName(names, entries[j].status), wanted, before, list, n, start);
      return;
    }
    WantedAppAt(entries, names, crd.spec);
    RightSkip(wanted, list, n, store.updates[start..]);
  }

  /** The pass over app connections: for each resource the entries are scanned up to the first match.
      `crds` is the list of resources it got, which may be stale. */
  method CheckAppConnections(entries: seq<AppInfo>, names: map<int, string>, store: Resources<AppSpec, string>)
    returns (listed: bool, ghost crds: seq<(string, Cr<AppSpec, string>)>)
    modifies store
    ensures old(store.updates) <= store.updates
    ensures OnceEach(crds) && AskedRight(WantedApp(entries, names), crds, |crds|, store.updates[|old(store.updates)|..])
    ensures forall x :: 0 <= x < |crds| ==>
              AppAsked(entries, names, crds[x].1, store.updates[|old(store.updates)|..], crds[x].0)
    ensures listed && store.exact ==>
              Passed(WantedApp(entries, names), old(store.items), store.items, store.updates[|old(store.updates)|..])
    ensures !listed ==> store.items == old(store.items) && store.updates == old(store.updates)
    ensures listed <==> store.faults == old(store.faults)
    ensures listed ==> store.answers == old(store.answers) + [crds]
  {
    var list := store.List();
    if list.Failure? {
      return false, [];
    }
    listed, crds := true, list.value;
    ghost var wanted := WantedApp(entries, names);
    ghost var before, start := store.items, store.updates;
    var i := 0;
    while i < |list.value|
      invariant 0 <= i <= |list.value|
      invariant start <= store.updates && store.faults == old(store.faults)
      invariant store.answers == old(store.answers) + [crds]
      invariant AskedRight(wanted, list.value, i, store.updates[|start|..])
      invariant store.exact ==> PassedSoFar(wanted, before, store.items, store.updates[|start|..])
    {
      var (k, crd) := list.value[i];
      CheckOne(entries, names, store, k, crd, wanted, before, list.value, i, |start|);
      i := i + 1;
    }
    AppsAsked(entries, names, list.value, store.updates[|start|..]);
    if store.exact {
      PassEnds(wanted, before, store.items, list.value, store.updates[|start|..]);
    }
  }

  /** The status a pass writes is that of the entry a disconnect would remove: both take the first
      match, so a resource gets a status exactly when a disconnect would find its entry. */
  lemma StatusAgreesWithDisconnect(entries: seq<AppInfo>, names: map<int, string>, spec: AppSpec)
    ensures WantedApp(entries, names)(spec).None? ==> AfterDisconnect(entries, KeyOf(spec)) == entries
    ensures
      WantedApp(entries, names)(spec).Some? ==>
        exists e :: e in entries && KeyOf(e.config) == KeyOf(spec) && e.id == FindId(entries, KeyOf(spec))
                    && WantedApp(entries, names)(spec).value == StatusName(names, e.status)
                    && (e.id != "" ==> e !in AfterDisconnect(entries, KeyOf(spec)))
  {
  }
}
