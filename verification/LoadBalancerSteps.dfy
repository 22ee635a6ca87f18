/** What each step and each chain of the load balancer service does to a sound world. */
module LoadBalancerSteps {
  import opened CloudApi
  import opened LoadBalancerSpec
  import opened LoadBalancerInvariant

  /** `w'` came from `w` by calls that left the status alone and touched at most `k`. */
  ghost predicate Touched(w: World, w': World, k: Key) {
    && w'.net == w.net && w'.host == w.host && w'.finalizer == w.finalizer
    && (forall k' :: k' != k ==> (k' in w'.cloud <==> k' in w.cloud) && (k' in w.cloud ==> w'.cloud[k'] == w.cloud[k']))
  }

  ghost predicate FitsSpec(cfg: Config, zs: set<string>, k: Key, spec: Resource) {
    forall o: Outcome :: Fits(cfg, zs, k, Stored(spec, o))
  }

  lemma StoredLinks(spec: Resource, o: Outcome)
    ensures References(Stored(spec, o)) == References(spec)
  {
  }

  lemma CalledKeeps(cfg: Config, base: Cloud, zs: set<string>, w: World, request: Request, c: Cloud)
    requires SoundRun(cfg, base, zs, w) && Sound(cfg, base, zs, c)
    ensures SoundRun(cfg, base, zs, Called(w, request, c))
  {
  }

  lemma GetKeeps(cfg: Config, base: Cloud, zs: set<string>, w: World, k: Key)
    requires SoundRun(cfg, base, zs, w)
    ensures SoundRun(cfg, base, zs, GetCall(w, k).w)
  {
    CalledKeeps(cfg, base, zs, w, Get(k), w.cloud);
  }

  lemma InsertKeeps(cfg: Config, base: Cloud, zs: set<string>, w: World, k: Key, spec: Resource)
    requires SoundRun(cfg, base, zs, w) && Own(cfg, k)
    requires FitsSpec(cfg, zs, k, spec) && References(spec) <= w.cloud.Keys
    ensures SoundRun(cfg, base, zs, InsertCall(w, k, spec).w)
  {
    var stored := Stored(spec, Next(w));
    StoredLinks(spec, Next(w));
    StoreKeeps(cfg, base, zs, w.cloud, k, stored);
    CalledKeeps(cfg, base, zs, w, Insert(k), w.cloud[k := stored]);
    CalledKeeps(cfg, base, zs, w, Insert(k), w.cloud);
  }

  lemma CreateKeeps(cfg: Config, base: Cloud, zs: set<string>, w: World, k: Key, spec: Resource)
    requires SoundRun(cfg, base, zs, w) && Own(cfg, k)
    requires FitsSpec(cfg, zs, k, spec) && References(spec) <= w.cloud.Keys
    ensures SoundRun(cfg, base, zs, CreateOrGet(w, k, spec).w)
  {
    GetKeeps(cfg, base, zs, w, k);
    var w1 := GetCall(w, k).w;
    InsertKeeps(cfg, base, zs, w1, k, spec);
    GetKeeps(cfg, base, zs, InsertCall(w1, k, spec).w, k);
  }

  lemma CreateFacts(w: World, k: Key, spec: Resource)
    ensures var r := CreateOrGet(w, k, spec);
      && Touched(w, r.w, k)
      && (k in w.cloud ==> k in r.w.cloud && r.w.cloud[k] == w.cloud[k])
      && (r.Done? ==> k in r.w.cloud && r.value == Found(k, r.w.cloud[k]))
      && Faults(r.w.oracle) <= Faults(w.oracle)
      && (r.Failed? ==> Faults(r.w.oracle) < Faults(w.oracle))
  {
    FaultsStep(w, Get(k), w.cloud);
    var w1 := GetCall(w, k).w;
    var r1 := InsertCall(w1, k, spec);
    FaultsStep(w1, Insert(k), r1.w.cloud);
    FaultsStep(r1.w, Get(k), r1.w.cloud);
  }

  // ----- instance groups -----

  lemma GroupFits(cfg: Config, zs: set<string>, zone: string)
    requires zone in zs
    ensures FitsSpec(cfg, zs, GroupKey(cfg, zone), GroupSpec(cfg))
  {
  }

  /** Facts about a step that leaves everything but instance groups and their map alone. */
  ghost predicate GroupsOnly(cfg: Config, w: World, w': World) {
    && w'.net.external == w.net.external && w'.net.internal == w.net.internal
    && w'.host == w.host && w'.finalizer == w.finalizer
    && w.cloud.Keys <= w'.cloud.Keys
    && (forall k :: !IsGroup(cfg, k) ==>
          (k in w'.cloud <==> k in w.cloud) && (k in w.cloud ==> w'.cloud[k] == w.cloud[k]))
  }

  lemma {:induction false} CreateGroupsFromKeeps(cfg: Config, base: Cloud, zs: set<string>, w: World,
                                                 zones: seq<string>, m: map<string, Link>, shared: bool)
    requires SoundRun(cfg, base, zs, w) && (forall z :: z in zones ==> z in zs)
    requires shared ==> w.net.groups == Some(m)
    ensures var r := CreateGroupsFrom(cfg, w, zones, m, shared);
      && SoundRun(cfg, base, zs, r.w)
      && GroupsOnly(cfg, w, r.w)
      && (!shared ==> r.w.net == w.net)
      && (shared ==> r.w.net.groups.Some?)
      && (r.Done? ==>
            && (forall z :: z in r.value <==> z in m || z in zones)
            && (forall z :: z in zones ==> r.value[z] == GroupKey(cfg, z))
            && (forall z :: z in m && z !in zones ==> r.value[z] == m[z])
            && (forall z :: z in zones ==> GroupKey(cfg, z) in r.w.cloud))
      && Faults(r.w.oracle) <= Faults(w.oracle)
      && (r.Failed? ==> Faults(r.w.oracle) < Faults(w.oracle))
    decreases |zones|
  {
    if zones != [] {
      var k := GroupKey(cfg, zones[0]);
      GroupFits(cfg, zs, zones[0]);
      CreateKeeps(cfg, base, zs, w, k, GroupSpec(cfg));
      CreateFacts(w, k, GroupSpec(cfg));
      var r1 := CreateOrGet(w, k, GroupSpec(cfg));
      if r1.Done? {
        var m1 := m[zones[0] := r1.value.link];
        var w2 := if shared then r1.w.(net := r1.w.net.(groups := Some(m1))) else r1.w;
        CreateGroupsFromKeeps(cfg, base, zs, w2, zones[1..], m1, shared);
        assert forall z :: z in zones <==> z == zones[0] || z in zones[1..];
        var r := CreateGroupsFrom(cfg, w2, zones[1..], m1, shared);
        assert r == CreateGroupsFrom(cfg, w, zones, m, shared);
        assert k in r.w.cloud;
      }
    }
  }

  lemma CreateGroupsKeeps(cfg: Config, base: Cloud, zs: set<string>, w: World, zones: seq<string>)
    requires SoundRun(cfg, base, zs, w) && (forall z :: z in zones ==> z in zs)
    ensures var r := CreateGroups(cfg, w, zones);
      && SoundRun(cfg, base, zs, r.w)
      && GroupsOnly(cfg, w, r.w)
      && (r.Done? ==>
            && r.value == GroupLinks(cfg, zones)
            && r.w.net.groups.Some?
            && (forall z :: z in r.w.net.groups.value ==> z in w.net.groups.GetOr(map[]) || z in zones)
            && (forall z :: z in zones ==>
                  && z in r.w.net.groups.value && r.w.net.groups.value[z] == GroupKey(cfg, z)
                  && GroupKey(cfg, z) in r.w.cloud))
      && Faults(r.w.oracle) <= Faults(w.oracle)
      && (r.Failed? ==> Faults(r.w.oracle) < Faults(w.oracle))
  {
    CreateGroupsFromKeeps(cfg, base, zs, w, zones, w.net.groups.GetOr(map[]), w.net.groups.Some?);
  }

  // ----- backend services and forwarding rules -----

  ghost predicate Distinct(zones: seq<string>) {
    forall i, j :: 0 <= i < j < |zones| ==> zones[i] != zones[j]
  }

  lemma BackendsFit(cfg: Config, zs: set<string>, zones: seq<string>, mode: BalancingMode, limit: int)
    requires Distinct(zones) && (forall z :: z in zones ==> z in zs)
    ensures FitBackends(cfg, zs, mode, BackendsFor(mode, limit, GroupLinks(cfg, zones)))
    ensures forall b :: b in BackendsFor(mode, limit, GroupLinks(cfg, zones)) ==>
              exists z :: z in zones && b.group == GroupKey(cfg, z)
  {
    var bs := BackendsFor(mode, limit, GroupLinks(cfg, zones));
    forall b | b in bs ensures exists z :: z in zones && b.group == GroupKey(cfg, z) {
      var i :| 0 <= i < |bs| && bs[i] == b;
      assert zones[i] in zones;
    }
  }

  lemma BackendServiceKeeps(cfg: Config, base: Cloud, zs: set<string>, w: World, k: Key, spec: Resource)
    requires SoundRun(cfg, base, zs, w) && Own(cfg, k) && k.kind.BackendServices?
    requires spec.BackendService? && FitsSpec(cfg, zs, k, spec) && References(spec) <= w.cloud.Keys
    ensures var r := CreateBackendService(w, k, spec);
      && SoundRun(cfg, base, zs, r.w)
      && Touched(w, r.w, k)
      && (k in w.cloud ==> k in r.w.cloud)
      && (r.Done? ==> k in r.w.cloud && r.value.link == k && |BackendsOf(r.w.cloud[k])| == |spec.backends|)
      && Faults(r.w.oracle) <= Faults(w.oracle)
      && (r.Failed? ==> Faults(r.w.oracle) < Faults(w.oracle))
  {
    CreateKeeps(cfg, base, zs, w, k, spec);
    CreateFacts(w, k, spec);
    var r1 := CreateOrGet(w, k, spec);
    if r1.Done? && |BackendsOf(r1.value.resource)| != |spec.backends| {
      UpdateKeeps(cfg, base, zs, r1.w, k, spec);
    }
  }

  /** Only the backends are replaced, and the other links are the wanted ones already. */
  lemma UpdatedFits(cfg: Config, base: Cloud, zs: set<string>, c: Cloud, k: Key, spec: Resource)
    requires Sound(cfg, base, zs, c) && Own(cfg, k) && k in c && k.kind.BackendServices?
    requires spec.BackendService? && FitsSpec(cfg, zs, k, spec)
    ensures c[k].BackendService?
    ensures var updated := WithBackends(c[k], spec.backends);
      Fits(cfg, zs, k, updated) && References(updated) == References(spec)
  {
    assert Stored(spec, Outcome(Works, "", false)) == spec;
    assert Outline(c[k]) == Outline(spec);
  }

  lemma UpdatedIsSound(cfg: Config, base: Cloud, zs: set<string>, c: Cloud, k: Key, spec: Resource)
    requires Sound(cfg, base, zs, c) && Own(cfg, k) && k in c && k.kind.BackendServices?
    requires spec.BackendService? && FitsSpec(cfg, zs, k, spec) && References(spec) <= c.Keys
    ensures c[k].BackendService? && Sound(cfg, base, zs, c[k := WithBackends(c[k], spec.backends)])
  {
    UpdatedFits(cfg, base, zs, c, k, spec);
    hide Fits, FitsSpec, Own, References;
    StoreKeeps(cfg, base, zs, c, k, WithBackends(c[k], spec.backends));
  }

  lemma UpdateKeeps(cfg: Config, base: Cloud, zs: set<string>, w: World, k: Key, spec: Resource)
    requires SoundRun(cfg, base, zs, w) && Own(cfg, k) && k in w.cloud && k.kind.BackendServices?
    requires spec.BackendService? && FitsSpec(cfg, zs, k, spec) && References(spec) <= w.cloud.Keys
    ensures var updated := WithBackends(w.cloud[k], spec.backends);
      var r := UpdateCall(w, k, updated);
      && SoundRun(cfg, base, zs, r.w)
      && Touched(w, r.w, k)
      && k in r.w.cloud
      && (r.Done? ==> r.w.cloud[k] == updated && BackendsOf(updated) == spec.backends)
      && Faults(r.w.oracle) <= Faults(w.oracle)
      && (r.Failed? ==> Faults(r.w.oracle) < Faults(w.oracle))
  {
    hide Sound, Fits, References, Own, FitsSpec, Faults;
    var updated := WithBackends(w.cloud[k], spec.backends);
    UpdatedIsSound(cfg, base, zs, w.cloud, k, spec);
    CalledKeeps(cfg, base, zs, w, Update(k), w.cloud[k := updated]);
    CalledKeeps(cfg, base, zs, w, Update(k), w.cloud);
    FaultsStep(w, Update(k), UpdateCall(w, k, updated).w.cloud);
  }

  lemma RuleKeeps(cfg: Config, base: Cloud, zs: set<string>, w: World, k: Key, spec: Resource)
    requires SoundRun(cfg, base, zs, w) && Own(cfg, k) && k.kind.ForwardingRules?
    requires FitsSpec(cfg, zs, k, spec) && References(spec) <= w.cloud.Keys
    ensures var r := CreateForwardingRule(cfg, w, k, spec);
      && SoundRun(cfg, base, zs, r.w)
      && Touched(w, r.w, k)
      && (k in w.cloud ==> k in r.w.cloud)
      && (r.Done? ==> k in r.w.cloud && r.value.link == k && LabelsOf(r.w.cloud[k]) == StoredLabels(cfg.labels))
      && Faults(r.w.oracle) <= Faults(w.oracle)
      && (r.Failed? ==> Faults(r.w.oracle) < Faults(w.oracle))
  {
    CreateKeeps(cfg, base, zs, w, k, spec);
    CreateFacts(w, k, spec);
    var r1 := CreateOrGet(w, k, spec);
    if r1.Done? {
      assert Fits(cfg, zs, k, r1.w.cloud[k]);
      if LabelsOf(r1.value.resource) != cfg.labels {
        LabelsKeep(cfg, base, zs, r1.w, k);
      }
    }
  }

  lemma LabelledIsSound(cfg: Config, base: Cloud, zs: set<string>, c: Cloud, k: Key)
    requires Sound(cfg, base, zs, c) && Own(cfg, k) && k in c && k.kind.ForwardingRules?
    ensures c[k].ForwardingRule? && Sound(cfg, base, zs, c[k := WithLabels(c[k], cfg.labels)])
  {
    var labelled := WithLabels(c[k], cfg.labels);
    assert Fits(cfg, zs, k, labelled);
    assert References(labelled) == References(c[k]);
    StoreKeeps(cfg, base, zs, c, k, labelled);
  }

  lemma LabelsKeep(cfg: Config, base: Cloud, zs: set<string>, w: World, k: Key)
    requires SoundRun(cfg, base, zs, w) && Own(cfg, k) && k in w.cloud && k.kind.ForwardingRules?
    ensures var r := SetLabelsCall(w, k, cfg.labels);
      && SoundRun(cfg, base, zs, r.w)
      && Touched(w, r.w, k)
      && k in r.w.cloud
      && (r.Done? ==> LabelsOf(r.w.cloud[k]) == StoredLabels(cfg.labels))
      && Faults(r.w.oracle) <= Faults(w.oracle)
      && (r.Failed? ==> Faults(r.w.oracle) < Faults(w.oracle))
  {
    hide Sound, Own, Faults;
    var labelled := WithLabels(w.cloud[k], cfg.labels);
    LabelledIsSound(cfg, base, zs, w.cloud, k);
    CalledKeeps(cfg, base, zs, w, SetLabels(k), w.cloud[k := labelled]);
    CalledKeeps(cfg, base, zs, w, SetLabels(k), w.cloud);
    FaultsStep(w, SetLabels(k), SetLabelsCall(w, k, cfg.labels).w.cloud);
  }

  // ----- subnets -----

  /** Fault-free lookups would find a subnet. */
  predicate SubnetReady(cfg: Config, c: Cloud, specs: seq<SubnetSpec>) {
    && specs != []
    && SubnetKey(cfg, specs[0]) in c
    && (WantedSubnet(cfg) == "" || HasSuffix(specs[0].name, WantedSubnet(cfg)) || SubnetReady(cfg, c, specs[1..]))
  }

  lemma {:induction false} SubnetKeeps(cfg: Config, base: Cloud, zs: set<string>, w: World, specs: seq<SubnetSpec>)
    requires SoundRun(cfg, base, zs, w)
    ensures var r := GetSubnet(cfg, w, specs);
      && SoundRun(cfg, base, zs, r.w)
      && r.w.cloud == w.cloud && r.w.net == w.net && r.w.host == w.host && r.w.finalizer == w.finalizer
      && (r.Done? ==>
            r.value in w.cloud && ChosenSubnet(cfg, specs) == Some(r.value) && SubnetReady(cfg, w.cloud, specs))
      && Faults(r.w.oracle) <= Faults(w.oracle)
      && (r.Failed? && SubnetReady(cfg, w.cloud, specs) ==> Faults(r.w.oracle) < Faults(w.oracle))
    decreases |specs|
  {
    if specs != [] {
      var k := SubnetKey(cfg, specs[0]);
      GetKeeps(cfg, base, zs, w, k);
      FaultsStep(w, Get(k), w.cloud);
      var r1 := GetCall(w, k);
      if r1.Done? {
        SubnetKeeps(cfg, base, zs, r1.w, specs[1..]);
      }
    }
  }
}
