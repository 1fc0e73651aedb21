/** App connection requests, the entries the AWI server lists for them, and the rule by which
    the operator finds the entry that belongs to a request. */
module AppConnections {
  import opened Wrappers
  import Names

  datatype Selector = Selector(matchCluster: Option<string>)

  datatype Endpoint = Endpoint(kind: string, selector: Option<Selector>)

  /** The fields of an app connection request the operator reads. `from` is the endpoint of the
      source; a nil `From` and a nil `Endpoint` are both `None`. */
  datatype AppSpec = AppSpec(matchName: string, name: string, from: Option<Endpoint>)

  /** What identifies an app connection: the network domain connection it runs over and its name. */
  datatype AppKey = AppKey(matchName: string, name: string)

  function KeyOf(spec: AppSpec): AppKey {
    AppKey(spec.matchName, spec.name)
  }

  /** Requests have one key exactly when they agree in both fields the search compares. */
  lemma SameKeyIff(a: AppSpec, b: AppSpec)
    ensures KeyOf(a) == KeyOf(b) <==> a.matchName == b.matchName && a.name == b.name
  {
  }

  // -------- cluster name defaulting --------

  /** Nil-safe getter chain for the cluster name of an endpoint. */
  function ClusterOf(e: Endpoint): string {
    if e.selector.Some? && e.selector.value.matchCluster.Some? then e.selector.value.matchCluster.value else ""
  }

  predicate NeedsCluster(spec: AppSpec) {
    && spec.from.Some?
    && Names.ToLower(spec.from.value.kind) == "pod"
    && ClusterOf(spec.from.value) == ""
  }

  /** The assignment to `MatchCluster` goes through the selector pointer without a nil check. */
  predicate Panics(spec: AppSpec) {
    NeedsCluster(spec) && spec.from.value.selector.None?
  }

  /** "pod", in whatever case the user wrote it. */
  predicate IsPod(kind: string) {
    |kind| == 3 && kind[0] in "pP" && kind[1] in "oO" && kind[2] in "dD"
  }

  /** Which requests are completed, and which cannot be, in terms of what the user wrote. */
  lemma NeedsClusterIff(spec: AppSpec)
    ensures
      NeedsCluster(spec) <==>
        && spec.from.Some? && IsPod(spec.from.value.kind)
        && match spec.from.value.selector
           case None => true
           case Some(selector) => selector.matchCluster in {None, Some("")}
    ensures Panics(spec) <==> spec.from.Some? && IsPod(spec.from.value.kind) && spec.from.value.selector.None?
  {
    if spec.from.Some? {
      var kind := spec.from.value.kind;
      assert Names.ToLower(kind) == "pod" <==>
        && |kind| == 3 && Names.LowerChar(kind[0]) == 'p' && Names.LowerChar(kind[1]) == 'o'
        && Names.LowerChar(kind[2]) == 'd';
    }
  }

  function DefaultCluster(spec: AppSpec, cluster: string): AppSpec
    requires !Panics(spec)
  {
    if NeedsCluster(spec)
    then spec.(from := Some(spec.from.value.(selector := Some(Selector(Some(cluster))))))
    else spec
  }

  /** The request that is sent has the key of the request the user wrote. It differs from it only
      when a pod endpoint names no cluster, and then only in naming the operator's cluster, so that
      defaulting it again changes nothing. */
  lemma DefaultClusterKeepsKey(spec: AppSpec, cluster: string)
    requires !Panics(spec)
    ensures
      var sent := DefaultCluster(spec, cluster);
      && KeyOf(sent) == KeyOf(spec)
      && (!NeedsCluster(spec) ==> sent == spec)
      && (NeedsCluster(spec) ==>
            && sent.from == Some(Endpoint(spec.from.value.kind, sent.from.value.selector))
            && sent.from.value.selector == Some(Selector(Some(cluster))) && ClusterOf(sent.from.value) == cluster)
      && (NeedsCluster(sent) ==> cluster == "")
      && !Panics(sent)
      && DefaultCluster(sent, cluster) == sent
  {
  }

  // -------- finding the entry of a request --------

  /** An entry of the AWI server's list. The status is a protobuf enumeration number. */
  datatype AppInfo = AppInfo(id: string, config: AppSpec, status: int)

  /** The first listed entry whose match name and name are those of the key. */
  function FirstMatch(entries: seq<AppInfo>, key: AppKey): (r: Option<AppInfo>)
    ensures r.Some? ==> r.value in entries && KeyOf(r.value.config) == key
    ensures r.None? <==> forall e :: e in entries ==> KeyOf(e.config) != key
  {
    if entries == [] then None
    else if KeyOf(entries[0].config) == key then Some(entries[0])
    else FirstMatch(entries[1..], key)
  }

  /** `FirstMatch` in terms of positions. */
  lemma {:induction false} FirstMatchAt(entries: seq<AppInfo>, key: AppKey, i: nat)
    requires i < |entries| && KeyOf(entries[i].config) == key
    requires forall j :: 0 <= j < i ==> KeyOf(entries[j].config) != key
    ensures FirstMatch(entries, key) == Some(entries[i])
  {
    if i > 0 {
      assert entries[1..][i - 1] == entries[i];
      FirstMatchAt(entries[1..], key, i - 1);
    }
  }

  /** The identifier `AppDisconnectRequest` ends its search with: empty when nothing matches,
      but also when the first match has an empty identifier. */
  function FindId(entries: seq<AppInfo>, key: AppKey): string {
    match FirstMatch(entries, key)
    case None => ""
    case Some(e) => e.id
  }

  /** The server's list after the operator disconnects a key. */
  function AfterDisconnect(entries: seq<AppInfo>, key: AppKey): seq<AppInfo> {
    if FindId(entries, key) == "" then entries else WithoutId(entries, FindId(entries, key))
  }

  function WithoutId(entries: seq<AppInfo>, id: string): (r: seq<AppInfo>)
    ensures forall e :: e in r <==> e in entries && e.id != id
  {
    if entries == [] then []
    else if entries[0].id == id then WithoutId(entries[1..], id)
    else [entries[0]] + WithoutId(entries[1..], id)
  }

  predicate Listed(entries: seq<AppInfo>, key: AppKey) {
    exists e :: e in entries && KeyOf(e.config) == key
  }

  predicate AllHaveId(entries: seq<AppInfo>, key: AppKey, id: string) {
    forall e :: e in entries && KeyOf(e.config) == key ==> e.id == id
  }

  /** Disconnecting leaves no entry of the key exactly when there was none, or all entries of the
      key carry one non-empty identifier. */
  lemma DisconnectClearsIff(entries: seq<AppInfo>, key: AppKey)
    ensures !Listed(AfterDisconnect(entries, key), key) <==>
            !Listed(entries, key) || exists id :: id != "" && AllHaveId(entries, key, id)
  {
    var id := FindId(entries, key);
    match FirstMatch(entries, key)
    case None =>
    case Some(first) =>
      assert first in entries;
      if id == "" {
        assert Listed(AfterDisconnect(entries, key), key);
      } else if !Listed(AfterDisconnect(entries, key), key) {
        forall e | e in entries && KeyOf(e.config) == key
          ensures e.id == id
        {
          assert e !in AfterDisconnect(entries, key);
        }
        assert AllHaveId(entries, key, id);
      }
  }

  /** An entry with an empty identifier is taken for a missing one and stays on the server. */
  lemma EmptyIdIsNotDisconnected()
    ensures
      var entry := AppInfo("", AppSpec("vpc-1:10", "db", None), 0);
      && FirstMatch([entry], KeyOf(entry.config)) == Some(entry)
      && AfterDisconnect([entry], KeyOf(entry.config)) == [entry]
  {
  }

  /** When identifiers are unique to a key, disconnecting one key touches no other key's entry. */
  lemma DisconnectSparesOthers(entries: seq<AppInfo>, key: AppKey, e: AppInfo)
    requires e in entries && KeyOf(e.config) != key
    requires forall a, b :: a in entries && b in entries && a.id == b.id ==> KeyOf(a.config) == KeyOf(b.config)
    ensures e in AfterDisconnect(entries, key)
  {
  }
}
