/** Network domains mirror the VPC and VPN resources the earlier syncers left, and a whole round
    makes them mirror the cloud. */
module DomainSync {
  import opened Names
  import opened SyncLoops
  import opened CloudSync
  import opened Wrappers

  // -------- the resources a network domain is derived from --------

  const DISCOVERED: map<string, string> := map["discovered" := "yes"]

  function VpcDomain(vpc: Vpc): Named<NetworkDomain> {
    Named(VpcDomainName(vpc.provider, vpc.name, vpc.id),
          NetworkDomain(Some(DISCOVERED), DomainSpec("VPC", vpc.name, vpc.id, ToUpper(vpc.provider))))
  }

  function VpnDomain(vpn: Vpn): Named<NetworkDomain> {
    Named(VpnDomainName(vpn.id), NetworkDomain(Some(DISCOVERED), DomainSpec("VRF", vpn.id, vpn.id, "")))
  }

  /** A derived network domain describes itself: what its name says of kind, provider, display name
      and identifier is what its specification says. The specification is that of the resource, with the
      provider in capitals, and the labels say that it was discovered. */
  lemma DomainsDescribeThemselves(vpc: Vpc, vpn: Vpn)
    ensures
      var d := VpcDomain(vpc);
      && ('.' !in vpc.provider && '.' !in vpc.id ==>
            PartsOf(d.name) == DomainParts(ToLower(d.item.spec.kind), ToLower(d.item.spec.provider),
                                           d.item.spec.name, d.item.spec.id))
      && d.name == VpcDomainName(d.item.spec.provider, d.item.spec.name, d.item.spec.id)
      && d.item.spec.kind == "VPC" && d.item.spec.name == vpc.name && d.item.spec.id == vpc.id
      && ToLower(d.item.spec.provider) == ToLower(vpc.provider)
      && (forall c :: c in d.item.spec.provider ==> !LowerLetter(c))
      && d.item.labels == Some(map["discovered" := "yes"])
    ensures
      var d := VpnDomain(vpn);
      && SplitFirst('.', d.name) == ("vpn", ToLower(d.item.spec.id))
      && d.item.spec == DomainSpec("VRF", vpn.id, vpn.id, "")
      && d.item.labels == Some(map["discovered" := "yes"])
  {
    if '.' !in vpc.provider && '.' !in vpc.id { VpcDomainNameRoundTrip(vpc.provider, vpc.name, vpc.id); }
    VpnDomainNameRoundTrip(vpn.id);
    assert ToLower(ToUpper(vpc.provider)) == ToLower(vpc.provider);
    assert ToLower("VPC") == "vpc";
  }

  /** The network domains a round should leave, given the VPC and VPN resources. */
  function DomainNames(vpcs: map<string, Vpc>, vpns: map<string, Vpn>): set<string> {
    (set n | n in vpcs :: VpcDomain(vpcs[n]).name) + (set n | n in vpns :: VpnDomain(vpns[n]).name)
  }

  /** Different resources give different network domains. */
  ghost predicate DistinctDomains(vpcs: map<string, Vpc>, vpns: map<string, Vpn>) {
    && (forall a, b :: a in vpcs && b in vpcs && VpcDomain(vpcs[a]).name == VpcDomain(vpcs[b]).name ==> a == b)
    && (forall a, b :: a in vpns && b in vpns && VpnDomain(vpns[a]).name == VpnDomain(vpns[b]).name ==> a == b)
  }

  /** A list response: the entries of a snapshot in some order. */
  method Entries<T(==)>(m: map<string, T>) returns (entries: seq<Named<T>>)
    ensures IsEntries(entries, m)
  {
    entries := [];
    var todo := m.Keys;
    ghost var done: map<string, T> := map[];
    while todo != {}
      invariant todo <= m.Keys && done == m - todo
      invariant IsEntries(entries, done)
      decreases todo
    {
      var n :| n in todo;
      EntriesSnoc(entries, done, n, m[n]);
      entries := entries + [Named(n, m[n])];
      todo := todo - {n};
      done := done[n := m[n]];
    }
    assert done == m;
  }

  ghost predicate IsEntries<T>(entries: seq<Named<T>>, m: map<string, T>) {
    && Distinct(entries)
    && (forall i :: 0 <= i < |entries| ==> entries[i].name in m && m[entries[i].name] == entries[i].item)
    && (forall n :: n in m ==> HasEntry(entries, n))
  }

  ghost predicate HasEntry<T>(entries: seq<Named<T>>, n: string) {
    exists i :: 0 <= i < |entries| && entries[i].name == n
  }

  lemma EntriesSnoc<T>(entries: seq<Named<T>>, m: map<string, T>, n: string, item: T)
    requires IsEntries(entries, m) && n !in m
    ensures IsEntries(entries + [Named(n, item)], m[n := item])
  {
    var more := entries + [Named(n, item)];
    forall x | x in m[n := item]
      ensures HasEntry(more, x)
    {
      if x == n {
        assert more[|entries|].name == n;
      } else {
        assert HasEntry(entries, x);
        var i :| 0 <= i < |entries| && entries[i].name == x;
        assert more[i].name == x;
      }
    }
  }

  function VpcDomains(entries: seq<Named<Vpc>>): seq<Named<NetworkDomain>> {
    seq(|entries|, i requires 0 <= i < |entries| => VpcDomain(entries[i].item))
  }

  function VpnDomains(entries: seq<Named<Vpn>>): seq<Named<NetworkDomain>> {
    seq(|entries|, i requires 0 <= i < |entries| => VpnDomain(entries[i].item))
  }

  /** The two loops of the syncer go through this listing. */
  ghost predicate IsDomainListing(listing: seq<Named<NetworkDomain>>, vpcs: map<string, Vpc>, vpns: map<string, Vpn>) {
    exists e1, e2 :: IsEntries(e1, vpcs) && IsEntries(e2, vpns) && listing == VpcDomains(e1) + VpnDomains(e2)
  }

  /** Resources that give one name make the listing ambiguous. */
  lemma VpcsTold(e1: seq<Named<Vpc>>, vpcs: map<string, Vpc>)
    requires IsEntries(e1, vpcs) && Distinct(VpcDomains(e1))
    ensures forall a, b :: a in vpcs && b in vpcs && VpcDomain(vpcs[a]).name == VpcDomain(vpcs[b]).name ==> a == b
  {
    forall a, b | a in vpcs && b in vpcs && VpcDomain(vpcs[a]).name == VpcDomain(vpcs[b]).name
      ensures a == b
    {
      assert HasEntry(e1, a) && HasEntry(e1, b);
      var i :| 0 <= i < |e1| && e1[i].name == a;
      var j :| 0 <= j < |e1| && e1[j].name == b;
      assert VpcDomains(e1)[i] == VpcDomain(vpcs[a]) && VpcDomains(e1)[j] == VpcDomain(vpcs[b]);
    }
  }

  lemma VpnsTold(e2: seq<Named<Vpn>>, vpns: map<string, Vpn>)
    requires IsEntries(e2, vpns) && Distinct(VpnDomains(e2))
    ensures forall a, b :: a in vpns && b in vpns && VpnDomain(vpns[a]).name == VpnDomain(vpns[b]).name ==> a == b
  {
    forall a, b | a in vpns && b in vpns && VpnDomain(vpns[a]).name == VpnDomain(vpns[b]).name
      ensures a == b
    {
      assert HasEntry(e2, a) && HasEntry(e2, b);
      var i :| 0 <= i < |e2| && e2[i].name == a;
      var j :| 0 <= j < |e2| && e2[j].name == b;
      assert VpnDomains(e2)[i] == VpnDomain(vpns[a]) && VpnDomains(e2)[j] == VpnDomain(vpns[b]);
    }
  }

  lemma VpcsApart(e1: seq<Named<Vpc>>, vpcs: map<string, Vpc>, vpns: map<string, Vpn>)
    requires IsEntries(e1, vpcs) && DistinctDomains(vpcs, vpns)
    ensures Distinct(VpcDomains(e1))
  {
  }

  lemma VpnsApart(e2: seq<Named<Vpn>>, vpcs: map<string, Vpc>, vpns: map<string, Vpn>)
    requires IsEntries(e2, vpns) && DistinctDomains(vpcs, vpns)
    ensures Distinct(VpnDomains(e2))
  {
  }

  /** The listing is free of duplicates exactly when the resources give different names, in whatever
      order the lists came; VPC and VPN domains never clash. */
  lemma ListingDistinctIff(e1: seq<Named<Vpc>>, vpcs: map<string, Vpc>, e2: seq<Named<Vpn>>, vpns: map<string, Vpn>)
    requires IsEntries(e1, vpcs) && IsEntries(e2, vpns)
    ensures Distinct(VpcDomains(e1) + VpnDomains(e2)) <==> DistinctDomains(vpcs, vpns)
  {
    var l1, l2 := VpcDomains(e1), VpnDomains(e2);
    DistinctAppend(l1, l2);
    if Distinct(l1 + l2) {
      VpcsTold(e1, vpcs);
      VpnsTold(e2, vpns);
    }
    if DistinctDomains(vpcs, vpns) {
      VpcsApart(e1, vpcs, vpns);
      VpnsApart(e2, vpcs, vpns);
    }
    forall i, j | 0 <= i < |l1| && 0 <= j < |l2|
      ensures l1[i].name != l2[j].name
    {
      VpnDomainNameInjective(e2[j].item.id, "");
    }
  }

  lemma VpcDomainNames(e1: seq<Named<Vpc>>, vpcs: map<string, Vpc>)
    requires IsEntries(e1, vpcs)
    ensures NamesOf(VpcDomains(e1)) == set n | n in vpcs :: VpcDomain(vpcs[n]).name
  {
    forall n | n in vpcs
      ensures VpcDomain(vpcs[n]).name in NamesOf(VpcDomains(e1))
    {
      assert HasEntry(e1, n);
      var i :| 0 <= i < |e1| && e1[i].name == n;
      assert VpcDomains(e1)[i].name == VpcDomain(vpcs[n]).name;
    }
    forall i | 0 <= i < |e1|
      ensures VpcDomains(e1)[i].name in set n | n in vpcs :: VpcDomain(vpcs[n]).name
    {
      assert e1[i].name in vpcs;
    }
  }

  lemma VpnDomainNames(e2: seq<Named<Vpn>>, vpns: map<string, Vpn>)
    requires IsEntries(e2, vpns)
    ensures NamesOf(VpnDomains(e2)) == set n | n in vpns :: VpnDomain(vpns[n]).name
  {
    forall n | n in vpns
      ensures VpnDomain(vpns[n]).name in NamesOf(VpnDomains(e2))
    {
      assert HasEntry(e2, n);
      var i :| 0 <= i < |e2| && e2[i].name == n;
      assert VpnDomains(e2)[i].name == VpnDomain(vpns[n]).name;
    }
    forall i | 0 <= i < |e2|
      ensures VpnDomains(e2)[i].name in set n | n in vpns :: VpnDomain(vpns[n]).name
    {
      assert e2[i].name in vpns;
    }
  }

  lemma ListingNames(e1: seq<Named<Vpc>>, vpcs: map<string, Vpc>, e2: seq<Named<Vpn>>, vpns: map<string, Vpn>)
    requires IsEntries(e1, vpcs) && IsEntries(e2, vpns)
    ensures NamesOf(VpcDomains(e1) + VpnDomains(e2)) == DomainNames(vpcs, vpns)
  {
    NamesOfAppend(VpcDomains(e1), VpnDomains(e2));
    VpcDomainNames(e1, vpcs);
    VpnDomainNames(e2, vpns);
  }

  /** Labels that keep a network domain which no resource gives: there are some, and "discovered" is not among
      them or is not "yes". */
  predicate UserMade(labels: Option<map<string, string>>) {
    match labels
    case None => false
    case Some(l) => "discovered" !in l || l["discovered"] != "yes"
  }

  lemma KeptByLabels(before: map<string, NetworkDomain>)
    ensures Kept(before, Protected) == set n | n in before && UserMade(before[n].labels)
  {
  }

  /** Wherever an exact run stops, what users made is still there as it was; and a successful one leaves just that
      besides what the resources give. */
  lemma UserMadeStay(before: map<string, NetworkDomain>, ws: seq<Write<NetworkDomain>>,
                     after: map<string, NetworkDomain>, listing: seq<Named<NetworkDomain>>, err: Option<Error>,
                     vpcs: map<string, Vpc>, vpns: map<string, Vpn>)
    requires Reconciled(true, before, ws, after, listing, Protected, err) && IsDomainListing(listing, vpcs, vpns)
    ensures forall n :: n in before && UserMade(before[n].labels) ==> n in after && after[n] == before[n]
    ensures
      err.None? ==> after.Keys == DomainNames(vpcs, vpns) + (set n | n in before && UserMade(before[n].labels))
  {
    forall n | n in before && UserMade(before[n].labels)
      ensures n in after && after[n] == before[n]
    {
      StoppedRun(true, before, ws, after, listing, Protected, err, n);
    }
    if err.None? {
      var e1, e2 :| IsEntries(e1, vpcs) && IsEntries(e2, vpns) && listing == VpcDomains(e1) + VpnDomains(e2);
      ListingNames(e1, vpcs, e2, vpns);
      KeptByLabels(before);
      TargetKeys(before, listing, Protected, after);
    }
  }

  // -------- the syncer --------

  class NetworkDomainSyncer {
    const vpcs: Resources<Vpc>
    const vpns: Resources<Vpn>
    const domains: Resources<NetworkDomain>

    constructor (vpcs: Resources<Vpc>, vpns: Resources<Vpn>, domains: Resources<NetworkDomain>)
      ensures this.vpcs == vpcs && this.vpns == vpns && this.domains == domains
    {
      this.vpcs := vpcs;
      this.vpns := vpns;
      this.domains := domains;
    }

    /** What the last answers to VPC and VPN lists give, which are the stored resources where lists are
        current. */
    ghost predicate Given(listing: seq<Named<NetworkDomain>>)
      reads vpcs, vpns
    {
      && |vpcs.answers| > 0 && |vpns.answers| > 0
      && var m1, m2 := vpcs.answers[|vpcs.answers| - 1], vpns.answers[|vpns.answers| - 1];
         IsDomainListing(listing, m1, m2) && (vpcs.exact ==> m1 == vpcs.items) && (vpns.exact ==> m2 == vpns.items)
    }

    /** `listing` is what the VPC and VPN lists, stale or not, gave; if a list failed nothing is written. */
    method Sync() returns (err: Option<Error>, ghost listing: seq<Named<NetworkDomain>>)
      modifies domains, vpcs`faults, vpcs`answers, vpns`faults, vpns`answers
      ensures old(domains.writes) <= domains.writes
      ensures
        err == Some(Fault) <==>
        vpcs.faults > old(vpcs.faults) || vpns.faults > old(vpns.faults) || domains.faults > old(domains.faults)
      ensures old(vpcs.faults) <= vpcs.faults && old(vpns.faults) <= vpns.faults
      ensures old(domains.faults) <= domains.faults
      ensures
        Reconciled(domains.exact, old(domains.items), domains.Since(|old(domains.writes)|), domains.items,
                   listing, Protected, err)
      ensures vpcs.faults > old(vpcs.faults) || vpns.faults > old(vpns.faults) ==> domains.writes == old(domains.writes)
      ensures (listing == [] && domains.writes == old(domains.writes)) || Given(listing)
      ensures vpcs.exact && vpns.exact && err != Some(Fault) ==> IsDomainListing(listing, vpcs.items, vpns.items)
      ensures
        domains.exact ==>
          forall n :: n in old(domains.items) && UserMade(old(domains.items)[n].labels) ==>
            n in domains.items && domains.items[n] == old(domains.items)[n]
      ensures
        vpcs.exact && vpns.exact && domains.exact && err.None? ==>
          domains.items.Keys ==
          DomainNames(vpcs.items, vpns.items)
          + (set n | n in old(domains.items) && UserMade(old(domains.items)[n].labels))
    {
      ghost var before, w0 := domains.items, |domains.writes|;
      listing := [];
      var vpcList := vpcs.List();
      if vpcList.Failure? {
        return Some(vpcList.error), [];
      }
      var vpnList := vpns.List();
      if vpnList.Failure? {
        return Some(vpnList.error), [];
      }
      var existing := domains.List();
      if existing.Failure? {
        return Some(existing.error), [];
      }
      var vpcEntries := Entries(vpcList.value);
      var vpnEntries := Entries(vpnList.value);
      listing := VpcDomains(vpcEntries) + VpnDomains(vpnEntries);
      assert IsDomainListing(listing, vpcList.value, vpnList.value);
      assert Given(listing);
      err := SyncDomains(domains, existing.value, VpcDomains(vpcEntries), VpnDomains(vpnEntries));
      if domains.exact {
        UserMadeStay(before, domains.Since(w0), domains.items, listing, err, vpcList.value, vpnList.value);
      }
    }
  }

  /** The loops over VPC domains and VPN domains, as one loop over both would do. */
  method AdoptDomains(domains: Resources<NetworkDomain>, existing: map<string, NetworkDomain>,
                      l1: seq<Named<NetworkDomain>>, l2: seq<Named<NetworkDomain>>, wanted: set<string>,
                      ghost ok: Write<NetworkDomain> -> bool)
    returns (err: Option<Error>, leftover: map<string, NetworkDomain>)
    requires NamesOf(l1) + NamesOf(l2) == wanted
    requires domains.exact ==> existing == domains.items
    requires domains.exact ==> forall i :: 0 <= i < |l1| ==> ok(Created(l1[i].name, l1[i].item))
    requires domains.exact ==> forall i :: 0 <= i < |l2| ==> ok(Created(l2[i].name, l2[i].item))
    modifies domains
    ensures old(domains.writes) <= domains.writes
    ensures domains.faults == old(domains.faults) + if err == Some(Fault) then 1 else 0
    ensures Adopting(domains.exact, old(domains.items), domains.Since(|old(domains.writes)|), domains.items, wanted, ok)
    ensures err.None? ==> leftover == existing - wanted
    ensures domains.exact && err.None? ==> Progress(old(domains.items), l1 + l2, domains.items, leftover)
    ensures domains.exact && err.Some? && err != Some(Fault) ==> err == Some(AlreadyExists) && !Distinct(l1 + l2)
  {
    ghost var origin, w0 := domains.items, domains.writes;
    assert domains.exact ==> Progress(origin, [], domains.items, existing);
    assert [] + l1 == l1;
    err, leftover := AdoptOrCreate(domains, existing, l1, wanted, origin, [], ok);
    if err.Some? {
      DistinctAppend(l1, l2);
      return;
    }
    ghost var m1, w1 := domains.items, domains.writes;
    err, leftover := AdoptOrCreate(domains, leftover, l2, wanted, origin, l1, ok);
    AdoptingMore(domains.exact, origin, m1, domains.items, w0, w1, domains.writes, wanted, ok);
  }

  /** The three loops of the syncer: VPC domains, VPN domains, then the rest. */
  method SyncDomains(domains: Resources<NetworkDomain>, existing: map<string, NetworkDomain>,
                     l1: seq<Named<NetworkDomain>>, l2: seq<Named<NetworkDomain>>)
    returns (err: Option<Error>)
    requires domains.exact ==> existing == domains.items
    modifies domains
    ensures old(domains.writes) <= domains.writes
    ensures domains.faults == old(domains.faults) + if err == Some(Fault) then 1 else 0
    ensures
      Reconciled(domains.exact, old(domains.items), domains.Since(|old(domains.writes)|), domains.items,
                 l1 + l2, Protected, err)
  {
    ghost var origin, w0 := domains.items, domains.writes;
    var wanted := NamesOf(l1 + l2);
    NamesOfAppend(l1, l2);
    ghost var ok := (w: Write<NetworkDomain>) => Proper(origin, l1 + l2, Protected, w);
    assert forall i :: 0 <= i < |l1| ==> (l1 + l2)[i] == l1[i];
    assert forall i :: 0 <= i < |l2| ==> (l1 + l2)[|l1| + i] == l2[i];
    var leftover: map<string, NetworkDomain>;
    err, leftover := AdoptDomains(domains, existing, l1, l2, wanted, ok);
    if err.Some? {
      return;
    }
    ghost var m1, w1 := domains.items, domains.writes;
    err := Prune(domains, leftover, Protected, wanted, ok);
    Extend(origin, w1[|w0|..], m1, domains.Since(|w1|), domains.items, w0, w1, domains.writes, wanted, ok);
    if domains.exact && err.None? {
      AdoptThenPrune(origin, l1 + l2, Protected, m1, leftover, domains.items);
    }
  }

  // -------- one round --------

  /** VPC resources are stored under their cloud name, with dot-free provider and identifier. */
  ghost predicate WellNamedVpcs(vpcs: map<string, Vpc>) {
    forall n :: n in vpcs ==> n == VpcName(vpcs[n]) && '.' !in vpcs[n].provider && '.' !in vpcs[n].id
  }

  /** VPN resources are stored under their identifier, which Kubernetes requires to be lower-case. */
  ghost predicate WellNamedVpns(vpns: map<string, Vpn>) {
    forall n :: n in vpns ==> n == vpns[n].id && IsLower(n)
  }

  lemma WellNamedGivesDistinct(vpcs: map<string, Vpc>, vpns: map<string, Vpn>)
    requires WellNamedVpcs(vpcs) && WellNamedVpns(vpns)
    ensures DistinctDomains(vpcs, vpns)
  {
    forall a, b | a in vpcs && b in vpcs && VpcDomain(vpcs[a]).name == VpcDomain(vpcs[b]).name
      ensures a == b
    {
      var v, w := vpcs[a], vpcs[b];
      VpcDomainNameInjective(v.provider, v.name, v.id, w.provider, w.name, w.id);
    }
    forall a, b | a in vpns && b in vpns && VpnDomain(vpns[a]).name == VpnDomain(vpns[b]).name
      ensures a == b
    {
      VpnDomainNameInjective(a, b);
    }
  }

  /** The cloud's listings satisfy what the names rely on. */
  ghost predicate WellNamedCloud(cloud: Cloud) {
    && (forall v :: v in cloud.VpcsOf("AWS") || v in cloud.VpcsOf("GCP") ==> '.' !in v.provider && '.' !in v.id)
    && (forall v :: v in cloud.vpns ==> IsLower(v.id))
  }

  /** What is assumed of names, resource by resource. */
  lemma WellNamedIff(cloud: Cloud, vpcs: map<string, Vpc>, vpns: map<string, Vpn>)
    ensures
      WellNamedCloud(cloud) <==>
        && (forall v :: v in cloud.VpcsOf("AWS") || v in cloud.VpcsOf("GCP") ==> '.' !in v.provider && '.' !in v.id)
        && (forall v :: v in cloud.vpns ==> forall c :: c in v.id ==> !UpperLetter(c))
    ensures
      WellNamedVpcs(vpcs) <==>
        forall n :: n in vpcs ==>
          n == CloudName(vpcs[n].provider, vpcs[n].id) && '.' !in vpcs[n].provider && '.' !in vpcs[n].id
    ensures
      WellNamedVpns(vpns) <==> forall n :: n in vpns ==> n == vpns[n].id && forall c :: c in n ==> !UpperLetter(c)
  {
    forall s: string
      ensures IsLower(s) <==> forall c :: c in s ==> !UpperLetter(c)
    {
      IsLowerIff(s);
    }
  }

  /** Syncing keeps resources stored under their names. */
  lemma VpcsStayWellNamed(cloud: Cloud, origin: map<string, Vpc>, items: map<string, Vpc>)
    requires WellNamedCloud(cloud) && WellNamedVpcs(origin)
    requires Target(origin, CloudVpcs(cloud), Unprotected, items)
    ensures WellNamedVpcs(items)
  {
    forall n | n in items && n !in origin
      ensures n == VpcName(items[n]) && '.' !in items[n].provider && '.' !in items[n].id
    {
      var i :| 0 <= i < |CloudVpcs(cloud)| && CloudVpcs(cloud)[i].name == n;
      ListedVpc(cloud, CloudVpcs(cloud)[i]);
    }
  }

  lemma VpnsStayWellNamed(cloud: Cloud, origin: map<string, Vpn>, items: map<string, Vpn>)
    requires WellNamedCloud(cloud) && WellNamedVpns(origin)
    requires Target(origin, CloudVpns(cloud), Unprotected, items)
    ensures WellNamedVpns(items)
  {
  }

  datatype RoundErrors = RoundErrors(instances: Option<Error>, vpcs: Option<Error>, vpns: Option<Error>,
                                     domains: Option<Error>)

  predicate NoFault(logged: RoundErrors) {
    && logged.instances != Some(Fault) && logged.vpcs != Some(Fault)
    && logged.vpns != Some(Fault) && logged.domains != Some(Fault)
  }

  /** A network domain as its VPC or VPN resource gives it. */
  ghost predicate Derived(name: string, nd: NetworkDomain, vpcs: map<string, Vpc>, vpns: map<string, Vpn>) {
    || (exists n :: n in vpcs && VpcDomain(vpcs[n]) == Named(name, nd))
    || (exists n :: n in vpns && VpnDomain(vpns[n]) == Named(name, nd))
  }

  /** What the operator derives it never protects, so a later round can delete it. It has name and specification
      of one of the resources. */
  lemma DerivedIsUnprotected(name: string, nd: NetworkDomain, vpcs: map<string, Vpc>, vpns: map<string, Vpn>)
    requires Derived(name, nd, vpcs, vpns)
    ensures !UserMade(nd.labels) && !Protected(nd)
    ensures
      || (exists n :: n in vpcs && name == VpcDomainName(vpcs[n].provider, vpcs[n].name, vpcs[n].id)
                      && nd.spec == DomainSpec("VPC", vpcs[n].name, vpcs[n].id, ToUpper(vpcs[n].provider)))
      || (exists n :: n in vpns && name == VpnDomainName(vpns[n].id)
                      && nd.spec == DomainSpec("VRF", vpns[n].id, vpns[n].id, ""))
  {
  }

  /** What a round with successful VPC and VPN syncs achieves: the stored VPCs and VPNs are those of
      the cloud; the network domain sync can only fail by a fault; and when it does not, the network
      domains are exactly one for each VPC, one for each VPN, and the protected ones; those that were
      there are stored as before, new ones as derived. */
  ghost predicate Mirrors(cloud: Cloud, vpcs: map<string, Vpc>, vpns: map<string, Vpn>,
                          before: map<string, NetworkDomain>, domains: map<string, NetworkDomain>, err: Option<Error>) {
    && vpcs.Keys == (set v | v in cloud.VpcsOf("AWS") :: CloudName(v.provider, v.id))
                    + (set v | v in cloud.VpcsOf("GCP") :: CloudName(v.provider, v.id))
    && vpns.Keys == (set v | v in cloud.vpns :: v.id)
    && (forall n :: n in vpcs ==> n == CloudName(vpcs[n].provider, vpcs[n].id))
    && (forall n :: n in vpns ==> n == vpns[n].id)
    && DistinctDomains(vpcs, vpns)
    && (err.None? || err == Some(Fault))
    && (err.None? ==>
          && domains.Keys == DomainNames(vpcs, vpns) + (set n | n in before && UserMade(before[n].labels))
          && (forall n :: n in before && n in domains ==> domains[n] == before[n])
          && (forall n :: n in domains && n !in before ==> Derived(n, domains[n], vpcs, vpns)))
  }

  /** A network domain sync against well-named resources can only fail by a fault. */
  lemma DomainsMirror(vpcs: map<string, Vpc>, vpns: map<string, Vpn>, before: map<string, NetworkDomain>,
                      ws: seq<Write<NetworkDomain>>, domains: map<string, NetworkDomain>,
                      listing: seq<Named<NetworkDomain>>, err: Option<Error>)
    requires DistinctDomains(vpcs, vpns) && IsDomainListing(listing, vpcs, vpns)
    requires Reconciled(true, before, ws, domains, listing, Protected, err)
    ensures err.None? || err == Some(Fault)
    ensures
      err.None? ==>
        && domains.Keys == DomainNames(vpcs, vpns) + (set n | n in before && UserMade(before[n].labels))
        && (forall n :: n in before && n in domains ==> domains[n] == before[n])
        && (forall n :: n in domains && n !in before ==> Derived(n, domains[n], vpcs, vpns))
  {
    var e1, e2 :| IsEntries(e1, vpcs) && IsEntries(e2, vpns) && listing == VpcDomains(e1) + VpnDomains(e2);
    ListingDistinctIff(e1, vpcs, e2, vpns);
    if err.None? {
      UserMadeStay(before, ws, domains, listing, err, vpcs, vpns);
      NewDomainsDerived(e1, vpcs, e2, vpns, before, domains, listing);
    }
  }

  /** What a run creates is what the resources give. */
  lemma NewDomainsDerived(e1: seq<Named<Vpc>>, vpcs: map<string, Vpc>, e2: seq<Named<Vpn>>, vpns: map<string, Vpn>,
                          before: map<string, NetworkDomain>, domains: map<string, NetworkDomain>,
                          listing: seq<Named<NetworkDomain>>)
    requires IsEntries(e1, vpcs) && IsEntries(e2, vpns) && listing == VpcDomains(e1) + VpnDomains(e2)
    requires Target(before, listing, Protected, domains)
    ensures forall n :: n in domains && n !in before ==> Derived(n, domains[n], vpcs, vpns)
  {
    forall n | n in domains && n !in before
      ensures Derived(n, domains[n], vpcs, vpns)
    {
      assert n in NamesOf(listing);
      var i :| 0 <= i < |listing| && listing[i].name == n;
      ListedIsDerived(e1, vpcs, e2, vpns, i);
    }
  }

  lemma ListedIsDerived(e1: seq<Named<Vpc>>, vpcs: map<string, Vpc>, e2: seq<Named<Vpn>>, vpns: map<string, Vpn>,
                        i: nat)
    requires IsEntries(e1, vpcs) && IsEntries(e2, vpns) && i < |e1| + |e2|
    ensures
      var d := (VpcDomains(e1) + VpnDomains(e2))[i];
      Derived(d.name, d.item, vpcs, vpns)
  {
  }

  /** Wherever a run against the stored VPCs and VPNs stops: no network domain that one of them gives is
      deleted, nor one whose labels say that a user made it; those that stay are as before, and no other
      name is created than one of them gives. What the run itself creates is as derived. */
  lemma StoppedRunSpares(exact: bool, before: map<string, NetworkDomain>, ws: seq<Write<NetworkDomain>>,
                         after: map<string, NetworkDomain>, listing: seq<Named<NetworkDomain>>, err: Option<Error>,
                         vpcs: map<string, Vpc>, vpns: map<string, Vpn>, n: string)
    requires Reconciled(exact, before, ws, after, listing, Protected, err)
    requires (listing == [] && ws == []) || IsDomainListing(listing, vpcs, vpns)
    ensures n in before && n in DomainNames(vpcs, vpns) ==> n in after
    ensures
      exact && n in before && before[n].labels.Some?
      && ("discovered" !in before[n].labels.value || before[n].labels.value["discovered"] != "yes") ==>
        n in after
    ensures n in before && n in after ==> after[n] == before[n]
    ensures n in after && n !in before ==> n in DomainNames(vpcs, vpns) && (exact ==> Derived(n, after[n], vpcs, vpns))
  {
    if ws != [] {
      StoppedRun(exact, before, ws, after, listing, Protected, err, n);
      var e1, e2 :| IsEntries(e1, vpcs) && IsEntries(e2, vpns) && listing == VpcDomains(e1) + VpnDomains(e2);
      ListingNames(e1, vpcs, e2, vpns);
      if exact && n in after && n !in before {
        var i :| 0 <= i < |listing| && listing[i] == Named(n, after[n]);
        ListedIsDerived(e1, vpcs, e2, vpns, i);
      }
    }
  }

  /** Successful VPC and VPN syncs leave the VPCs and VPNs of the cloud, under names that make the
      network domains distinct. */
  lemma CloudMirrored(cloud: Cloud, vpcs0: map<string, Vpc>, vpcs: map<string, Vpc>, vpns0: map<string, Vpn>,
                      vpns: map<string, Vpn>)
    requires WellNamedCloud(cloud) && WellNamedVpcs(vpcs0) && WellNamedVpns(vpns0)
    requires Target(vpcs0, CloudVpcs(cloud), Unprotected, vpcs) && Target(vpns0, CloudVpns(cloud), Unprotected, vpns)
    ensures vpcs.Keys == VpcNames(cloud.VpcsOf("AWS")) + VpcNames(cloud.VpcsOf("GCP"))
    ensures vpns.Keys == VpnNames(cloud.vpns)
    ensures WellNamedVpcs(vpcs) && WellNamedVpns(vpns)
    ensures DistinctDomains(vpcs, vpns)
  {
    CloudNames(cloud);
    TargetKeys(vpcs0, CloudVpcs(cloud), Unprotected, vpcs);
    TargetKeys(vpns0, CloudVpns(cloud), Unprotected, vpns);
    VpcsStayWellNamed(cloud, vpcs0, vpcs);
    VpnsStayWellNamed(cloud, vpns0, vpns);
    WellNamedGivesDistinct(vpcs, vpns);
  }

  lemma RoundMirrors(cloud: Cloud, vpcs0: map<string, Vpc>, vpcs: map<string, Vpc>, vpns0: map<string, Vpn>,
                     vpns: map<string, Vpn>,
                     before: map<string, NetworkDomain>, ws: seq<Write<NetworkDomain>>,
                     domains: map<string, NetworkDomain>,
                     listing: seq<Named<NetworkDomain>>, err: Option<Error>)
    requires WellNamedCloud(cloud) && WellNamedVpcs(vpcs0) && WellNamedVpns(vpns0)
    requires Target(vpcs0, CloudVpcs(cloud), Unprotected, vpcs) && Target(vpns0, CloudVpns(cloud), Unprotected, vpns)
    requires Reconciled(true, before, ws, domains, listing, Protected, err)
    requires err != Some(Fault) ==> IsDomainListing(listing, vpcs, vpns)
    ensures Mirrors(cloud, vpcs, vpns, before, domains, err)
  {
    CloudMirrored(cloud, vpcs0, vpcs, vpns0, vpns);
    if err != Some(Fault) {
      DomainsMirror(vpcs, vpns, before, ws, domains, listing, err);
    }
  }

  /** What a round achieves: after successful VPC and VPN syncs the network domains mirror the cloud, and without
      faults, if the cloud lists nothing twice, all three succeed. */
  ghost predicate Achieved(cloud: Cloud, vpcs: map<string, Vpc>, vpns: map<string, Vpn>,
                           before: map<string, NetworkDomain>, domains: map<string, NetworkDomain>,
                           logged: RoundErrors) {
    && (logged.vpcs.None? && logged.vpns.None? ==> Mirrors(cloud, vpcs, vpns, before, domains, logged.domains))
    && (NoFault(logged) && Distinct(CloudVpcs(cloud)) && Distinct(CloudVpns(cloud)) ==>
          logged.vpcs.None? && logged.vpns.None? && logged.domains.None?)
  }

  /** A round of exact syncers over well-named resources, however each of them fared. */
  lemma RoundEnds(cloud: Cloud, vpcs0: map<string, Vpc>, ws1: seq<Write<Vpc>>, vpcs: map<string, Vpc>,
                  vpns0: map<string, Vpn>, ws2: seq<Write<Vpn>>, vpns: map<string, Vpn>,
                  before: map<string, NetworkDomain>, ws: seq<Write<NetworkDomain>>,
                  domains: map<string, NetworkDomain>, listing: seq<Named<NetworkDomain>>, logged: RoundErrors)
    requires WellNamedCloud(cloud) && WellNamedVpcs(vpcs0) && WellNamedVpns(vpns0)
    requires Reconciled(true, vpcs0, ws1, vpcs, CloudVpcs(cloud), Unprotected, logged.vpcs)
    requires Reconciled(true, vpns0, ws2, vpns, CloudVpns(cloud), Unprotected, logged.vpns)
    requires Reconciled(true, before, ws, domains, listing, Protected, logged.domains)
    requires logged.domains != Some(Fault) ==> IsDomainListing(listing, vpcs, vpns)
    ensures Achieved(cloud, vpcs, vpns, before, domains, logged)
  {
    if logged.vpcs.None? && logged.vpns.None? {
      RoundMirrors(cloud, vpcs0, vpcs, vpns0, vpns, before, ws, domains, listing, logged.domains);
    }
  }

  class Syncers {
    const instanceSyncer: InstanceSyncer
    const vpcSyncer: VPCSyncer
    const vpnSyncer: VPNSyncer
    const domainSyncer: NetworkDomainSyncer

    constructor (cloud: Cloud, instances: Resources<Instance>, vpcs: Resources<Vpc>, vpns: Resources<Vpn>,
                 domains: Resources<NetworkDomain>)
      ensures instanceSyncer.cloud == vpcSyncer.cloud == vpnSyncer.cloud == cloud
      ensures instanceSyncer.store == instances && vpcSyncer.store == vpcs && vpnSyncer.store == vpns
      ensures domainSyncer.vpcs == vpcs && domainSyncer.vpns == vpns && domainSyncer.domains == domains
    {
      instanceSyncer := new InstanceSyncer(cloud, instances);
      vpcSyncer := new VPCSyncer(cloud, vpcs);
      vpnSyncer := new VPNSyncer(cloud, vpns);
      domainSyncer := new NetworkDomainSyncer(vpcs, vpns, domains);
    }

    /** The requests that have met a fault. */
    ghost function CloudFaults(): nat
      reads instanceSyncer.cloud, instanceSyncer.store, vpcSyncer.store, vpnSyncer.store
    {
      instanceSyncer.cloud.faults + instanceSyncer.store.faults + vpcSyncer.store.faults + vpnSyncer.store.faults
    }

    ghost function Faults(): nat
      reads instanceSyncer.cloud, instanceSyncer.store, vpcSyncer.store, vpnSyncer.store, domainSyncer.domains
    {
      CloudFaults() + domainSyncer.domains.faults
    }

    /** A syncer has met the contract of one run. */
    twostate predicate Met<T(0)>(st: Resources<T>, new listing: seq<Named<T>>, keep: T -> bool,
                                 err: Option<Error>)
      reads st
    {
      && old(st.writes) <= st.writes
      && Reconciled(st.exact, old(st.items), st.Since(|old(st.writes)|), st.items, listing, keep, err)
    }

    /** The syncers of cloud resources, in order. */
    method SyncClouds() returns (logged: RoundErrors)
      requires instanceSyncer.cloud == vpcSyncer.cloud == vpnSyncer.cloud
      modifies instanceSyncer.cloud, instanceSyncer.store, vpcSyncer.store, vpnSyncer.store
      ensures Met(instanceSyncer.store, InstanceListing(instanceSyncer.cloud, SUPPORTED_CLOUDS), Unprotected,
                  logged.instances)
      ensures Met(vpcSyncer.store, CloudVpcs(vpcSyncer.cloud), Unprotected, logged.vpcs)
      ensures Met(vpnSyncer.store, CloudVpns(vpnSyncer.cloud), Unprotected, logged.vpns)
      ensures logged.domains.None? && CloudFaults() >= old(CloudFaults())
      ensures NoFault(logged) <==> CloudFaults() == old(CloudFaults())
    {
      var e1 := instanceSyncer.Sync();
      var e2 := vpcSyncer.Sync();
      var e3 := vpnSyncer.Sync();
      logged := RoundErrors(e1, e2, e3, None);
    }

    /** Each syncer has met its contract, whatever happened to the others, and the network domain syncer for the
        VPCs and VPNs that the others left. */
    twostate predicate AllMet(logged: RoundErrors, new listing: seq<Named<NetworkDomain>>)
      reads this, instanceSyncer.store, vpcSyncer.store, vpnSyncer.store, domainSyncer.domains
      reads domainSyncer.vpcs, domainSyncer.vpns
    {
      && Met(instanceSyncer.store, InstanceListing(instanceSyncer.cloud, SUPPORTED_CLOUDS), Unprotected,
             logged.instances)
      && Met(vpcSyncer.store, CloudVpcs(vpcSyncer.cloud), Unprotected, logged.vpcs)
      && Met(vpnSyncer.store, CloudVpns(vpnSyncer.cloud), Unprotected, logged.vpns)
      && Met(domainSyncer.domains, listing, Protected, logged.domains)
      && ((listing == [] && domainSyncer.domains.writes == old(domainSyncer.domains.writes))
          || domainSyncer.Given(listing))
      && (vpcSyncer.store.exact && vpnSyncer.store.exact && logged.domains != Some(Fault) ==>
            IsDomainListing(listing, vpcSyncer.store.items, vpnSyncer.store.items))
    }

    /** The syncers run in order and an error of one does not keep the next from running. The
        errors, which the code only logs, are returned to speak about them. */
    method SyncEach() returns (logged: RoundErrors, ghost listing: seq<Named<NetworkDomain>>)
      requires instanceSyncer.cloud == vpcSyncer.cloud == vpnSyncer.cloud
      requires domainSyncer.vpcs == vpcSyncer.store && domainSyncer.vpns == vpnSyncer.store
      modifies instanceSyncer.cloud, instanceSyncer.store, vpcSyncer.store, vpnSyncer.store, domainSyncer.domains
      ensures AllMet(logged, listing)
      ensures NoFault(logged) <==> Faults() == old(Faults())
    {
      logged := SyncClouds();
      var err;
      err, listing := domainSyncer.Sync();
      logged := logged.(domains := err);
    }

    /** One round. With exact syncers over well-named resources the network domains come to mirror the cloud. */
    method Sync() returns (logged: RoundErrors, ghost listing: seq<Named<NetworkDomain>>)
      requires instanceSyncer.cloud == vpcSyncer.cloud == vpnSyncer.cloud
      requires domainSyncer.vpcs == vpcSyncer.store && domainSyncer.vpns == vpnSyncer.store
      modifies instanceSyncer.cloud, instanceSyncer.store, vpcSyncer.store, vpnSyncer.store, domainSyncer.domains
      ensures AllMet(logged, listing)
      ensures NoFault(logged) <==> Faults() == old(Faults())
      ensures
        && vpcSyncer.store.exact && vpnSyncer.store.exact && domainSyncer.domains.exact
        && WellNamedCloud(vpcSyncer.cloud)
        && WellNamedVpcs(old(vpcSyncer.store.items)) && WellNamedVpns(old(vpnSyncer.store.items)) ==>
          Achieved(vpcSyncer.cloud, vpcSyncer.store.items, vpnSyncer.store.items,
                   old(domainSyncer.domains.items), domainSyncer.domains.items, logged)
    {
      ghost var vpcs0, vpns0 := vpcSyncer.store.items, vpnSyncer.store.items;
      ghost var n1, n2 := |vpcSyncer.store.writes|, |vpnSyncer.store.writes|;
      ghost var before, n := domainSyncer.domains.items, |domainSyncer.domains.writes|;
      logged, listing := SyncEach();
      if && vpcSyncer.store.exact && vpnSyncer.store.exact && domainSyncer.domains.exact
         && WellNamedCloud(vpcSyncer.cloud) && WellNamedVpcs(vpcs0) && WellNamedVpns(vpns0) {
        RoundEnds(vpcSyncer.cloud, vpcs0, vpcSyncer.store.Since(n1), vpcSyncer.store.items,
                  vpns0, vpnSyncer.store.Since(n2), vpnSyncer.store.items,
                  before, domainSyncer.domains.Since(n), domainSyncer.domains.items, listing, logged);
      }
    }
  }

  // -------- what "mirror" does not include --------

  /** The network domain of a VPC carries the VPC's current display name exactly when the stored VPC
      does; stored resources are never updated. */
  lemma DomainFollowsStoredName(stored: Vpc, listed: Vpc)
    requires VpcName(stored) == VpcName(listed)
    requires '.' !in stored.provider && '.' !in stored.id && '.' !in listed.provider && '.' !in listed.id
    ensures VpcDomain(stored).name == VpcDomain(listed).name <==> stored.name == listed.name
  {
    VpcDomainNameInjective(stored.provider, stored.name, stored.id, listed.provider, listed.name, listed.id);
    CloudNameInjective(stored.provider, stored.id, listed.provider, listed.id);
  }

  /** After an exact successful run a network domain that no VPC and no VPN gives is still there, as it was,
      exactly when it has labels and they lack "discovered" or map it to something other than "yes"; else it is
      gone, in particular when it has no labels. One that a resource gives is still there whatever its labels. */
  lemma KeptIff(before: map<string, NetworkDomain>, ws: seq<Write<NetworkDomain>>, after: map<string, NetworkDomain>,
                listing: seq<Named<NetworkDomain>>, vpcs: map<string, Vpc>, vpns: map<string, Vpn>, n: string)
    requires Reconciled(true, before, ws, after, listing, Protected, None) && IsDomainListing(listing, vpcs, vpns)
    requires n in before
    ensures n in after ==> after[n] == before[n]
    ensures n in DomainNames(vpcs, vpns) ==> n in after
    ensures
      n !in DomainNames(vpcs, vpns) ==>
        (n in after <==>
         && before[n].labels.Some?
         && ("discovered" !in before[n].labels.value || before[n].labels.value["discovered"] != "yes"))
  {
    var e1, e2 :| IsEntries(e1, vpcs) && IsEntries(e2, vpns) && listing == VpcDomains(e1) + VpnDomains(e2);
    ListingNames(e1, vpcs, e2, vpns);
    TargetKeys(before, listing, Protected, after);
  }
}
