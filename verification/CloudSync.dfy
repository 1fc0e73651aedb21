/** The syncers of instances, VPCs, VPNs and network domains, and the round that runs them. */
module CloudSync {
  import opened Names
  import opened SyncLoops
  import opened Wrappers

  // -------- what is synchronised --------

  datatype Instance = Instance(id: string)

  datatype Vpc = Vpc(provider: string, name: string, id: string)

  datatype Vpn = Vpn(id: string)

  datatype DomainSpec = DomainSpec(kind: string, name: string, id: string, provider: string)

  /** Nil labels are `None`. */
  datatype NetworkDomain = NetworkDomain(labels: Option<map<string, string>>, spec: DomainSpec)

  /** Only labels that are there and do not say "discovered: yes" protect a network domain. */
  predicate Protected(nd: NetworkDomain) {
    nd.labels.Some? && !("discovered" in nd.labels.value && nd.labels.value["discovered"] == "yes")
  }

  // -------- the cloud --------

  class Cloud {
    const vpcs: map<string, seq<Vpc>>
    const instances: map<string, seq<Instance>>
    const vpns: seq<Vpn>
    /** How many requests have met a fault. */
    ghost var faults: nat

    constructor (vpcs: map<string, seq<Vpc>>, instances: map<string, seq<Instance>>, vpns: seq<Vpn>)
      ensures this.vpcs == vpcs && this.instances == instances && this.vpns == vpns && faults == 0
    {
      this.vpcs := vpcs;
      this.instances := instances;
      this.vpns := vpns;
      faults := 0;
    }

    /** What the cloud of a provider lists. */
    function VpcsOf(provider: string): (l: seq<Vpc>)
      ensures provider in vpcs ==> l == vpcs[provider]
    {
      if provider in vpcs then vpcs[provider] else []
    }

    function InstancesOf(provider: string): (l: seq<Instance>)
      ensures provider in instances ==> l == instances[provider]
    {
      if provider in instances then instances[provider] else []
    }

    method ListVPCs(provider: string) returns (r: Result<seq<Vpc>, Error>)
      modifies this
      ensures r == Success(VpcsOf(provider)) || r == Failure(Fault)
      ensures faults == old(faults) + if r.Failure? then 1 else 0
    {
      var failed: bool := *;
      faults := if failed then faults + 1 else faults;
      r := if failed then Failure(Fault) else Success(VpcsOf(provider));
    }

    method ListInstances(provider: string) returns (r: Result<seq<Instance>, Error>)
      modifies this
      ensures r == Success(InstancesOf(provider)) || r == Failure(Fault)
      ensures faults == old(faults) + if r.Failure? then 1 else 0
    {
      var failed: bool := *;
      faults := if failed then faults + 1 else faults;
      r := if failed then Failure(Fault) else Success(InstancesOf(provider));
    }

    method ListVPNs() returns (r: Result<seq<Vpn>, Error>)
      modifies this
      ensures r == Success(vpns) || r == Failure(Fault)
      ensures faults == old(faults) + if r.Failure? then 1 else 0
    {
      var failed: bool := *;
      faults := if failed then faults + 1 else faults;
      r := if failed then Failure(Fault) else Success(vpns);
    }
  }

  // -------- listings --------

  function InstanceListing(cloud: Cloud, providers: seq<string>): seq<Named<Instance>> {
    if providers == [] then []
    else InstanceListing(cloud, providers[..|providers| - 1]) + InstancesNamed(cloud, providers[|providers| - 1])
  }

  function InstancesNamed(cloud: Cloud, provider: string): seq<Named<Instance>> {
    var l := cloud.InstancesOf(provider);
    seq(|l|, i requires 0 <= i < |l| => Named(CloudName(provider, l[i].id), l[i]))
  }

  function AllVpcs(cloud: Cloud, providers: seq<string>): seq<Vpc> {
    if providers == [] then []
    else AllVpcs(cloud, providers[..|providers| - 1]) + cloud.VpcsOf(providers[|providers| - 1])
  }

  function VpcName(vpc: Vpc): string {
    CloudName(vpc.provider, vpc.id)
  }

  function VpcsNamed(l: seq<Vpc>): (r: seq<Named<Vpc>>)
    ensures |r| == |l|
    ensures forall i :: 0 <= i < |l| ==> r[i].item == l[i] && r[i].name == CloudName(l[i].provider, l[i].id)
  {
    seq(|l|, i requires 0 <= i < |l| => Named(VpcName(l[i]), l[i]))
  }

  function VpnsNamed(l: seq<Vpn>): (r: seq<Named<Vpn>>)
    ensures |r| == |l|
    ensures forall i :: 0 <= i < |l| ==> r[i].item == l[i] && r[i].name == l[i].id
  {
    seq(|l|, i requires 0 <= i < |l| => Named(l[i].id, l[i]))
  }

  /** The VPCs and VPNs of the cloud as the syncers see them. */
  function CloudVpcs(cloud: Cloud): seq<Named<Vpc>> {
    VpcsNamed(AllVpcs(cloud, SUPPORTED_CLOUDS))
  }

  function CloudVpns(cloud: Cloud): seq<Named<Vpn>> {
    VpnsNamed(cloud.vpns)
  }

  /** What the VPC syncer goes through: the VPCs of the first cloud, then those of the second. */
  lemma VpcsOfBoth(cloud: Cloud)
    ensures CloudVpcs(cloud) == VpcsNamed(cloud.VpcsOf("AWS")) + VpcsNamed(cloud.VpcsOf("GCP"))
  {
    var first: seq<string> := ["AWS"];
    assert SUPPORTED_CLOUDS[..1] == first && first[..0] == [];
    assert AllVpcs(cloud, first) == AllVpcs(cloud, []) + cloud.VpcsOf("AWS");
    assert AllVpcs(cloud, SUPPORTED_CLOUDS) == cloud.VpcsOf("AWS") + cloud.VpcsOf("GCP");
  }

  /** The names the operator gives to what the clouds list. */
  function VpcNames(l: seq<Vpc>): set<string> {
    set v | v in l :: CloudName(v.provider, v.id)
  }

  function InstanceNames(provider: string, l: seq<Instance>): set<string> {
    set v | v in l :: CloudName(provider, v.id)
  }

  function VpnNames(l: seq<Vpn>): set<string> {
    set v | v in l :: v.id
  }

  lemma NamesOfVpcs(l: seq<Vpc>)
    ensures NamesOf(VpcsNamed(l)) == VpcNames(l)
  {
    var named := VpcsNamed(l);
    assert forall i :: 0 <= i < |l| ==> named[i].item in l;
    forall v | v in l
      ensures CloudName(v.provider, v.id) in NamesOf(named)
    {
      var i :| 0 <= i < |l| && l[i] == v;
      assert named[i].name == CloudName(v.provider, v.id);
    }
  }

  lemma NamesOfVpns(l: seq<Vpn>)
    ensures NamesOf(VpnsNamed(l)) == VpnNames(l)
  {
    var named := VpnsNamed(l);
    assert forall i :: 0 <= i < |l| ==> named[i].item in l;
    forall v | v in l
      ensures v.id in NamesOf(named)
    {
      var i :| 0 <= i < |l| && l[i] == v;
      assert named[i].name == v.id;
    }
  }

  lemma NamesOfInstances(cloud: Cloud, provider: string)
    ensures NamesOf(InstancesNamed(cloud, provider)) == InstanceNames(provider, cloud.InstancesOf(provider))
  {
    var l, named := cloud.InstancesOf(provider), InstancesNamed(cloud, provider);
    assert forall i :: 0 <= i < |l| ==> named[i].item in l;
    forall v | v in l
      ensures CloudName(provider, v.id) in NamesOf(named)
    {
      var i :| 0 <= i < |l| && l[i] == v;
      assert named[i].name == CloudName(provider, v.id);
    }
  }

  /** The names the syncers go through are those of what the clouds list, of either cloud and no other. */
  lemma CloudNames(cloud: Cloud)
    ensures NamesOf(CloudVpcs(cloud)) == VpcNames(cloud.VpcsOf("AWS")) + VpcNames(cloud.VpcsOf("GCP"))
    ensures NamesOf(CloudVpns(cloud)) == VpnNames(cloud.vpns)
    ensures
      NamesOf(InstanceListing(cloud, SUPPORTED_CLOUDS)) ==
      InstanceNames("AWS", cloud.InstancesOf("AWS")) + InstanceNames("GCP", cloud.InstancesOf("GCP"))
  {
    VpcsOfBoth(cloud);
    NamesOfAppend(VpcsNamed(cloud.VpcsOf("AWS")), VpcsNamed(cloud.VpcsOf("GCP")));
    NamesOfVpcs(cloud.VpcsOf("AWS"));
    NamesOfVpcs(cloud.VpcsOf("GCP"));
    NamesOfVpns(cloud.vpns);
    TwoClouds(cloud);
    NamesOfAppend(InstancesNamed(cloud, "AWS"), InstancesNamed(cloud, "GCP"));
    NamesOfInstances(cloud, "AWS");
    NamesOfInstances(cloud, "GCP");
  }

  /** An entry of the VPC listing is a VPC of one of the clouds under its name. */
  lemma ListedVpc(cloud: Cloud, e: Named<Vpc>)
    ensures
      e in CloudVpcs(cloud) <==>
      && (e.item in cloud.VpcsOf("AWS") || e.item in cloud.VpcsOf("GCP"))
      && e.name == CloudName(e.item.provider, e.item.id)
  {
    VpcsOfBoth(cloud);
    ListedIn(cloud.VpcsOf("AWS"), e);
    ListedIn(cloud.VpcsOf("GCP"), e);
  }

  lemma ListedIn(l: seq<Vpc>, e: Named<Vpc>)
    ensures e in VpcsNamed(l) <==> e.item in l && e.name == CloudName(e.item.provider, e.item.id)
  {
    if e.item in l && e.name == CloudName(e.item.provider, e.item.id) {
      var i :| 0 <= i < |l| && l[i] == e.item;
      assert VpcsNamed(l)[i] == e;
    }
  }

  /** No cloud lists an instance twice. */
  ghost predicate ListedOnce(l: seq<Instance>) {
    forall i, j :: 0 <= i < j < |l| ==> l[i].id != l[j].id
  }

  /** Each listed instance is there, under the name of its cloud. */
  lemma InstanceAt(cloud: Cloud, provider: string, i: nat)
    requires i < |cloud.InstancesOf(provider)|
    ensures
      var l, named := cloud.InstancesOf(provider), InstancesNamed(cloud, provider);
      |named| == |l| && named[i].item == l[i] && named[i].name == CloudName(provider, l[i].id)
  {
  }

  /** The accumulation visits the supported clouds in order. */
  lemma TwoClouds(cloud: Cloud)
    ensures InstanceListing(cloud, SUPPORTED_CLOUDS) == InstancesNamed(cloud, "AWS") + InstancesNamed(cloud, "GCP")
  {
    var first: seq<string> := ["AWS"];
    assert SUPPORTED_CLOUDS[..1] == first && first[..0] == [];
    assert InstanceListing(cloud, first) == InstanceListing(cloud, []) + InstancesNamed(cloud, "AWS");
  }

  /** The accumulated listing has no duplicate names exactly when no single cloud lists an
      identifier twice: equal identifiers of different clouds do not clash. */
  lemma InstanceListingDistinct(cloud: Cloud)
    ensures
      Distinct(InstanceListing(cloud, SUPPORTED_CLOUDS)) <==>
      ListedOnce(cloud.InstancesOf("AWS")) && ListedOnce(cloud.InstancesOf("GCP"))
  {
    var l1, l2 := InstancesNamed(cloud, "AWS"), InstancesNamed(cloud, "GCP");
    TwoClouds(cloud);
    DistinctAppend(l1, l2);
    NamedOnce(cloud, "AWS");
    NamedOnce(cloud, "GCP");
    forall i, j | 0 <= i < |l1| && 0 <= j < |l2|
      ensures l1[i].name != l2[j].name
    {
      SupportedCloudNames("AWS", cloud.InstancesOf("AWS")[i].id, "GCP", cloud.InstancesOf("GCP")[j].id);
    }
  }

  /** Within one cloud names differ exactly when identifiers do. */
  lemma NamedOnce(cloud: Cloud, provider: string)
    requires provider in SUPPORTED_CLOUDS
    ensures Distinct(InstancesNamed(cloud, provider)) <==> ListedOnce(cloud.InstancesOf(provider))
  {
    var ids, named := cloud.InstancesOf(provider), InstancesNamed(cloud, provider);
    forall i, j | 0 <= i < j < |ids|
      ensures named[i].name == named[j].name <==> ids[i].id == ids[j].id
    {
      SupportedCloudNames(provider, ids[i].id, provider, ids[j].id);
    }
  }

  // -------- the three syncers of cloud resources --------

  class InstanceSyncer {
    const cloud: Cloud
    const store: Resources<Instance>

    constructor (cloud: Cloud, store: Resources<Instance>)
      ensures this.cloud == cloud && this.store == store
    {
      this.cloud := cloud;
      this.store := store;
    }

    /** Instances of all clouds are accumulated first; if one cloud cannot be listed nothing is written. */
    method Sync() returns (err: Option<Error>)
      modifies cloud, store
      ensures old(store.writes) <= store.writes
      ensures err == Some(Fault) <==> cloud.faults > old(cloud.faults) || store.faults > old(store.faults)
      ensures old(cloud.faults) <= cloud.faults && old(store.faults) <= store.faults
      ensures cloud.faults > old(cloud.faults) ==> store.writes == old(store.writes)
      ensures
        Reconciled(store.exact, old(store.items), store.Since(|old(store.writes)|), store.items,
                   InstanceListing(cloud, SUPPORTED_CLOUDS), Unprotected, err)
      ensures
        store.exact && err.None? ==>
          store.items.Keys ==
          InstanceNames("AWS", cloud.InstancesOf("AWS")) + InstanceNames("GCP", cloud.InstancesOf("GCP"))
    {
      var existing: seq<Named<Instance>> := [];
      var i := 0;
      while i < |SUPPORTED_CLOUDS|
        invariant 0 <= i <= |SUPPORTED_CLOUDS|
        invariant existing == InstanceListing(cloud, SUPPORTED_CLOUDS[..i])
        invariant store.writes == old(store.writes) && store.items == old(store.items)
        invariant cloud.faults == old(cloud.faults) && store.faults == old(store.faults)
      {
        var listed := cloud.ListInstances(SUPPORTED_CLOUDS[i]);
        if listed.Failure? {
          return Some(listed.error);
        }
        var j := 0;
        ghost var before := existing;
        while j < |listed.value|
          invariant 0 <= j <= |listed.value|
          invariant existing == before + InstancesNamed(cloud, SUPPORTED_CLOUDS[i])[..j]
        {
          existing := existing + [Named(CloudName(SUPPORTED_CLOUDS[i], listed.value[j].id), listed.value[j])];
          j := j + 1;
        }
        assert SUPPORTED_CLOUDS[..i + 1][..i] == SUPPORTED_CLOUDS[..i];
        i := i + 1;
      }
      assert SUPPORTED_CLOUDS[..i] == SUPPORTED_CLOUDS;
      err := SyncAll(store, existing);
      CloudNames(cloud);
      if store.exact && err.None? { TargetKeys(old(store.items), existing, Unprotected, store.items); }
    }
  }

  class VPCSyncer {
    const cloud: Cloud
    const store: Resources<Vpc>

    constructor (cloud: Cloud, store: Resources<Vpc>)
      ensures this.cloud == cloud && this.store == store
    {
      this.cloud := cloud;
      this.store := store;
    }

    method Sync() returns (err: Option<Error>)
      modifies cloud, store
      ensures old(store.writes) <= store.writes
      ensures err == Some(Fault) <==> cloud.faults > old(cloud.faults) || store.faults > old(store.faults)
      ensures old(cloud.faults) <= cloud.faults && old(store.faults) <= store.faults
      ensures cloud.faults > old(cloud.faults) ==> store.writes == old(store.writes)
      ensures
        Reconciled(store.exact, old(store.items), store.Since(|old(store.writes)|), store.items,
                   CloudVpcs(cloud), Unprotected, err)
      ensures
        store.exact && err.None? ==>
          store.items.Keys == VpcNames(cloud.VpcsOf("AWS")) + VpcNames(cloud.VpcsOf("GCP"))
    {
      var existing: seq<Vpc> := [];
      var i := 0;
      while i < |SUPPORTED_CLOUDS|
        invariant 0 <= i <= |SUPPORTED_CLOUDS|
        invariant existing == AllVpcs(cloud, SUPPORTED_CLOUDS[..i])
        invariant store.writes == old(store.writes) && store.items == old(store.items)
        invariant cloud.faults == old(cloud.faults) && store.faults == old(store.faults)
      {
        var listed := cloud.ListVPCs(SUPPORTED_CLOUDS[i]);
        if listed.Failure? {
          return Some(listed.error);
        }
        existing := existing + listed.value;
        assert SUPPORTED_CLOUDS[..i + 1][..i] == SUPPORTED_CLOUDS[..i];
        i := i + 1;
      }
      assert SUPPORTED_CLOUDS[..i] == SUPPORTED_CLOUDS;
      err := SyncAll(store, VpcsNamed(existing));
      CloudNames(cloud);
      if store.exact && err.None? { TargetKeys(old(store.items), CloudVpcs(cloud), Unprotected, store.items); }
    }
  }

  class VPNSyncer {
    const cloud: Cloud
    const store: Resources<Vpn>

    constructor (cloud: Cloud, store: Resources<Vpn>)
      ensures this.cloud == cloud && this.store == store
    {
      this.cloud := cloud;
      this.store := store;
    }

    method Sync() returns (err: Option<Error>)
      modifies cloud, store
      ensures old(store.writes) <= store.writes
      ensures err == Some(Fault) <==> cloud.faults > old(cloud.faults) || store.faults > old(store.faults)
      ensures old(cloud.faults) <= cloud.faults && old(store.faults) <= store.faults
      ensures cloud.faults > old(cloud.faults) ==> store.writes == old(store.writes)
      ensures
        Reconciled(store.exact, old(store.items), store.Since(|old(store.writes)|), store.items,
                   CloudVpns(cloud), Unprotected, err)
      ensures store.exact && err.None? ==> store.items.Keys == VpnNames(cloud.vpns)
    {
      var listed := cloud.ListVPNs();
      if listed.Failure? {
        return Some(listed.error);
      }
      err := SyncAll(store, VpnsNamed(listed.value));
      CloudNames(cloud);
      if store.exact && err.None? { TargetKeys(old(store.items), CloudVpns(cloud), Unprotected, store.items); }
    }
  }
}
