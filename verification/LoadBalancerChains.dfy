/** The create and delete chains, and whole Reconcile and Delete calls, on a sound world. */
module LoadBalancerChains {
  import opened CloudApi
  import opened LoadBalancerSpec
  import opened LoadBalancerInvariant
  import opened LoadBalancerSteps

  ghost predicate Ready(cfg: Config, zs: set<string>, w: World, zones: seq<string>) {
    && Distinct(zones)
    && (forall z :: z in zones ==> z in zs && GroupKey(cfg, z) in w.cloud)
  }

  /** Everything the external chain is for is in place. */
  ghost predicate ExternalSettled(cfg: Config, count: nat, w: World) {
    var service, address, rule :=
      ExternalKey(cfg, BackendServices), ExternalKey(cfg, Addresses), ExternalKey(cfg, ForwardingRules);
    && ExternalKey(cfg, HealthChecks) in w.cloud && service in w.cloud && ExternalKey(cfg, TargetTcpProxies) in w.cloud
    && address in w.cloud && rule in w.cloud
    && |BackendsOf(w.cloud[service])| == count
    && LabelsOf(w.cloud[rule]) == StoredLabels(cfg.labels)
    && w.net.external == ChainStatus(Some(ExternalKey(cfg, HealthChecks)), Some(service),
                                     Some(ExternalKey(cfg, TargetTcpProxies)), Some(address), Some(rule))
    && w.host == IpOf(w.cloud[address])
  }

  ghost predicate InternalSettled(cfg: Config, count: nat, w: World) {
    var service, address, rule :=
      InternalKey(cfg, BackendServices), InternalKey(cfg, Addresses), InternalKey(cfg, ForwardingRules);
    && InternalKey(cfg, HealthChecks) in w.cloud && service in w.cloud && address in w.cloud && rule in w.cloud
    && |BackendsOf(w.cloud[service])| == count
    && LabelsOf(w.cloud[rule]) == StoredLabels(cfg.labels)
    && w.net.internal.healthCheck == Some(InternalKey(cfg, HealthChecks))
    && w.net.internal.backendService == Some(service)
    && w.net.internal.address == Some(address)
    && w.net.internal.forwardingRule == Some(rule)
    && (Type(cfg).Internal? ==> w.host == IpOf(w.cloud[address]))
  }

  /** Keys stay, and resources outside `scope` stay as they are. */
  ghost predicate OnlyScope(w: World, w': World, scope: Scope) {
    && w'.finalizer == w.finalizer && w'.net.groups == w.net.groups
    && w.cloud.Keys <= w'.cloud.Keys
    && (forall k: Key :: k.scope != scope ==>
          (k in w'.cloud <==> k in w.cloud) && (k in w.cloud ==> w'.cloud[k] == w.cloud[k]))
  }

  /** Keys stay, and resources at other keys stay as they are. */
  ghost predicate OnlyKeys(w: World, w': World, k1: Key, k2: Key) {
    && w'.finalizer == w.finalizer && w'.net.groups == w.net.groups
    && w.cloud.Keys <= w'.cloud.Keys
    && (forall k :: k != k1 && k != k2 ==>
          (k in w'.cloud <==> k in w.cloud) && (k in w.cloud ==> w'.cloud[k] == w.cloud[k]))
  }

  lemma ExternalBackendFits(cfg: Config, zs: set<string>, w: World, zones: seq<string>)
    requires Ready(cfg, zs, w, zones) && ExternalKey(cfg, HealthChecks) in w.cloud
    ensures var spec := ExternalBackendSpec(cfg, GroupLinks(cfg, zones), ExternalKey(cfg, HealthChecks));
      && FitsSpec(cfg, zs, ExternalKey(cfg, BackendServices), spec)
      && References(spec) <= w.cloud.Keys && |spec.backends| == |zones|
  {
    BackendsFit(cfg, zs, zones, ExternalMode(cfg), if ExternalMode(cfg).Connection? then 1000 else 0);
  }

  lemma InternalBackendFits(cfg: Config, zs: set<string>, w: World, zones: seq<string>)
    requires Ready(cfg, zs, w, zones) && InternalKey(cfg, HealthChecks) in w.cloud
    ensures var spec := InternalBackendSpec(cfg, GroupLinks(cfg, zones), InternalKey(cfg, HealthChecks));
      && FitsSpec(cfg, zs, InternalKey(cfg, BackendServices), spec)
      && References(spec) <= w.cloud.Keys && |spec.backends| == |zones|
  {
    BackendsFit(cfg, zs, zones, Connection, 0);
  }

  lemma ExternalFits(cfg: Config, zs: set<string>)
    requires WantsExternal(cfg)
    ensures forall kind :: kind in {HealthChecks, BackendServices, TargetTcpProxies, Addresses, ForwardingRules} ==>
              Own(cfg, ExternalKey(cfg, kind))
    ensures FitsSpec(cfg, zs, ExternalKey(cfg, HealthChecks), HealthCheck(""))
    ensures FitsSpec(cfg, zs, ExternalKey(cfg, TargetTcpProxies), TargetTcpProxy(ExternalKey(cfg, BackendServices)))
    ensures FitsSpec(cfg, zs, ExternalKey(cfg, Addresses), Address(ExternalScheme, "", "", None, ""))
    ensures FitsSpec(cfg, zs, ExternalKey(cfg, ForwardingRules),
                     ExternalRuleSpec(cfg, ExternalKey(cfg, TargetTcpProxies), ExternalKey(cfg, Addresses)))
    ensures References(HealthCheck("")) == {}
    ensures References(TargetTcpProxy(ExternalKey(cfg, BackendServices))) == {ExternalKey(cfg, BackendServices)}
    ensures References(Address(ExternalScheme, "", "", None, "")) == {}
    ensures References(ExternalRuleSpec(cfg, ExternalKey(cfg, TargetTcpProxies), ExternalKey(cfg, Addresses))) ==
              {ExternalKey(cfg, TargetTcpProxies), ExternalKey(cfg, Addresses)}
  {
  }

  lemma InternalFits(cfg: Config, zs: set<string>)
    requires WantsInternal(cfg)
    ensures forall kind :: kind in {HealthChecks, BackendServices, Addresses, ForwardingRules} ==>
              Own(cfg, InternalKey(cfg, kind))
    ensures FitsSpec(cfg, zs, InternalKey(cfg, HealthChecks), HealthCheck(cfg.region))
    ensures ChosenSubnet(cfg, cfg.subnets).Some? ==>
              var subnet := ChosenSubnet(cfg, cfg.subnets).value;
              && FitsSpec(cfg, zs, InternalKey(cfg, Addresses), InternalAddressSpec(cfg, subnet))
              && FitsSpec(cfg, zs, InternalKey(cfg, ForwardingRules),
                          InternalRuleSpec(cfg, InternalKey(cfg, BackendServices), InternalKey(cfg, Addresses), subnet))
              && References(InternalAddressSpec(cfg, subnet)) == {subnet}
              && References(InternalRuleSpec(cfg, InternalKey(cfg, BackendServices), InternalKey(cfg, Addresses),
                                             subnet))
                   == {InternalKey(cfg, BackendServices), InternalKey(cfg, Addresses), subnet}
    ensures References(HealthCheck(cfg.region)) == {}
  {
    ChosenIsSubnet(cfg, cfg.subnets);
  }

  lemma ExternalServiceKeeps(cfg: Config, base: Cloud, zs: set<string>, w: World, zones: seq<string>)
    requires SoundRun(cfg, base, zs, w) && WantsExternal(cfg) && Ready(cfg, zs, w, zones)
    ensures var r := CreateExternalService(cfg, w, GroupLinks(cfg, zones));
      && SoundRun(cfg, base, zs, r.w)
      && OnlyScope(w, r.w, Global) && r.w.net.internal == w.net.internal
      && (r.Done? ==>
            && r.value == ExternalKey(cfg, BackendServices) && r.value in r.w.cloud
            && ExternalKey(cfg, HealthChecks) in r.w.cloud
            && |BackendsOf(r.w.cloud[r.value])| == |zones|
            && r.w.net.external == w.net.external.(healthCheck := Some(ExternalKey(cfg, HealthChecks)),
                                                   backendService := Some(r.value)))
      && Faults(r.w.oracle) <= Faults(w.oracle)
      && (r.Failed? ==> Faults(r.w.oracle) < Faults(w.oracle))
  {
    hide SoundLog, Sound, Fits, Own, Wanted, FitsSpec, References, CreateOrGet, CreateBackendService,
      CreateForwardingRule, Faults;
    ExternalFits(cfg, zs);
    var check := ExternalKey(cfg, HealthChecks);
    CreateKeeps(cfg, base, zs, w, check, HealthCheck(""));
    CreateFacts(w, check, HealthCheck(""));
    var r1 := CreateOrGet(w, check, HealthCheck(""));
    if r1.Failed? { return; }
    var w1 := SetExternal(r1.w, r1.w.net.external.(healthCheck := Some(check)));
    ExternalBackendFits(cfg, zs, w1, zones);
    BackendServiceKeeps(cfg, base, zs, w1, ExternalKey(cfg, BackendServices),
                        ExternalBackendSpec(cfg, GroupLinks(cfg, zones), check));
  }

  lemma ProxyKeeps(cfg: Config, base: Cloud, zs: set<string>, w: World)
    requires SoundRun(cfg, base, zs, w) && WantsExternal(cfg) && ExternalKey(cfg, BackendServices) in w.cloud
    ensures var r := CreateProxy(cfg, w, ExternalKey(cfg, BackendServices));
      var proxy := ExternalKey(cfg, TargetTcpProxies);
      && SoundRun(cfg, base, zs, r.w)
      && OnlyKeys(w, r.w, proxy, proxy) && r.w.net.internal == w.net.internal && r.w.host == w.host
      && (r.Done? ==>
            r.value == proxy && proxy in r.w.cloud && r.w.net.external == w.net.external.(targetProxy := Some(proxy)))
      && Faults(r.w.oracle) <= Faults(w.oracle)
      && (r.Failed? ==> Faults(r.w.oracle) < Faults(w.oracle))
  {
    hide SoundLog, Sound, Fits, Own, Wanted, FitsSpec, References, CreateOrGet, Faults;
    ExternalFits(cfg, zs);
    var proxy := ExternalKey(cfg, TargetTcpProxies);
    CreateKeeps(cfg, base, zs, w, proxy, TargetTcpProxy(ExternalKey(cfg, BackendServices)));
    CreateFacts(w, proxy, TargetTcpProxy(ExternalKey(cfg, BackendServices)));
  }

  lemma CreateExternalKeeps(cfg: Config, base: Cloud, zs: set<string>, w: World, zones: seq<string>)
    requires SoundRun(cfg, base, zs, w) && WantsExternal(cfg) && Ready(cfg, zs, w, zones)
    ensures var r := CreateExternal(cfg, w, GroupLinks(cfg, zones));
      && SoundRun(cfg, base, zs, r.w)
      && OnlyScope(w, r.w, Global) && r.w.net.internal == w.net.internal
      && (r.Done? ==> ExternalSettled(cfg, |zones|, r.w))
      && Faults(r.w.oracle) <= Faults(w.oracle)
      && (r.Failed? ==> Faults(r.w.oracle) < Faults(w.oracle))
  {
    hide SoundLog, Sound, Faults, CreateExternalFrontend, CreateExternalService, CreateProxy;
    ExternalServiceKeeps(cfg, base, zs, w, zones);
    var r1 := CreateExternalService(cfg, w, GroupLinks(cfg, zones));
    if r1.Failed? { return; }
    ProxyKeeps(cfg, base, zs, r1.w);
    var r2 := CreateProxy(cfg, r1.w, r1.value);
    if r2.Failed? { return; }
    ExternalFrontendKeeps(cfg, base, zs, r2.w);
  }

  lemma ExternalFrontendKeeps(cfg: Config, base: Cloud, zs: set<string>, w: World)
    requires SoundRun(cfg, base, zs, w) && WantsExternal(cfg) && ExternalKey(cfg, TargetTcpProxies) in w.cloud
    ensures var r := CreateExternalFrontend(cfg, w, ExternalKey(cfg, TargetTcpProxies));
      && SoundRun(cfg, base, zs, r.w)
      && OnlyKeys(w, r.w, ExternalKey(cfg, Addresses), ExternalKey(cfg, ForwardingRules))
      && r.w.net.internal == w.net.internal
      && (r.Done? ==>
            && ExternalKey(cfg, Addresses) in r.w.cloud && ExternalKey(cfg, ForwardingRules) in r.w.cloud
            && r.w.host == IpOf(r.w.cloud[ExternalKey(cfg, Addresses)])
            && LabelsOf(r.w.cloud[ExternalKey(cfg, ForwardingRules)]) == StoredLabels(cfg.labels)
            && r.w.net.external == w.net.external.(address := Some(ExternalKey(cfg, Addresses)),
                                                   forwardingRule := Some(ExternalKey(cfg, ForwardingRules))))
      && Faults(r.w.oracle) <= Faults(w.oracle)
      && (r.Failed? ==> Faults(r.w.oracle) < Faults(w.oracle))
  {
    hide SoundLog, Sound, Fits, Own, Wanted, FitsSpec, References, CreateOrGet, CreateBackendService,
      CreateForwardingRule, Faults;
    ExternalFits(cfg, zs);
    var address := ExternalKey(cfg, Addresses);
    var aspec := Address(ExternalScheme, "", "", None, "");
    CreateKeeps(cfg, base, zs, w, address, aspec);
    CreateFacts(w, address, aspec);
    var r4 := CreateOrGet(w, address, aspec);
    if r4.Failed? { return; }
    var w4 := SetExternal(r4.w, r4.w.net.external.(address := Some(address))).(host := IpOf(r4.value.resource));
    var rule := ExternalKey(cfg, ForwardingRules);
    RuleKeeps(cfg, base, zs, w4, rule, ExternalRuleSpec(cfg, ExternalKey(cfg, TargetTcpProxies), address));
  }

  lemma SubnetReadyKeeps(cfg: Config, base: Cloud, zs: set<string>, c: Cloud, specs: seq<SubnetSpec>)
    requires Sound(cfg, base, zs, c)
    ensures SubnetReady(cfg, base, specs) <==> SubnetReady(cfg, c, specs)
  {
    if specs != [] {
      assert !Own(cfg, SubnetKey(cfg, specs[0]));
    }
  }

  lemma InternalAddressKeeps(cfg: Config, base: Cloud, zs: set<string>, w: World)
    requires SoundRun(cfg, base, zs, w) && WantsInternal(cfg)
    ensures var r := CreateInternalAddress(cfg, w); var k := InternalKey(cfg, Addresses);
      && SoundRun(cfg, base, zs, r.w)
      && OnlyKeys(w, r.w, k, k) && r.w.net.external == w.net.external
      && (Type(cfg).Internal? || r.w.host == w.host)
      && (r.Done? ==>
            && r.value == k && k in r.w.cloud && SubnetReady(cfg, base, cfg.subnets)
            && (Type(cfg).Internal? ==> r.w.host == IpOf(r.w.cloud[k]))
            && r.w.net.internal == w.net.internal.(address := Some(k)))
      && Faults(r.w.oracle) <= Faults(w.oracle)
      && (r.Failed? && SubnetReady(cfg, base, cfg.subnets) ==> Faults(r.w.oracle) < Faults(w.oracle))
  {
    hide Sound, Fits, Own, Wanted, FitsSpec, References, CreateOrGet, CreateForwardingRule, Faults, GetSubnet,
      SubnetReady;
    InternalFits(cfg, zs);
    SubnetKeeps(cfg, base, zs, w, cfg.subnets);
    SubnetReadyKeeps(cfg, base, zs, w.cloud, cfg.subnets);
    var r1 := GetSubnet(cfg, w, cfg.subnets);
    if r1.Failed? { return; }
    var k, spec := InternalKey(cfg, Addresses), InternalAddressSpec(cfg, r1.value);
    CreateKeeps(cfg, base, zs, r1.w, k, spec);
    CreateFacts(r1.w, k, spec);
  }

  lemma InternalRuleKeeps(cfg: Config, base: Cloud, zs: set<string>, w: World)
    requires SoundRun(cfg, base, zs, w) && WantsInternal(cfg)
    requires InternalKey(cfg, BackendServices) in w.cloud && InternalKey(cfg, Addresses) in w.cloud
    ensures var k := InternalKey(cfg, ForwardingRules);
      var r := CreateInternalRule(cfg, w, InternalKey(cfg, BackendServices), InternalKey(cfg, Addresses));
      && SoundRun(cfg, base, zs, r.w)
      && OnlyKeys(w, r.w, k, k) && r.w.net.external == w.net.external && r.w.host == w.host
      && (r.Done? ==>
            && k in r.w.cloud && LabelsOf(r.w.cloud[k]) == StoredLabels(cfg.labels)
            && r.w.net.internal == w.net.internal.(forwardingRule := Some(k)))
      && Faults(r.w.oracle) <= Faults(w.oracle)
      && (r.Failed? && SubnetReady(cfg, base, cfg.subnets) ==> Faults(r.w.oracle) < Faults(w.oracle))
  {
    hide Sound, Fits, Own, Wanted, FitsSpec, References, CreateOrGet, CreateForwardingRule, Faults, GetSubnet,
      SubnetReady;
    InternalFits(cfg, zs);
    SubnetKeeps(cfg, base, zs, w, cfg.subnets);
    SubnetReadyKeeps(cfg, base, zs, w.cloud, cfg.subnets);
    var r1 := GetSubnet(cfg, w, cfg.subnets);
    if r1.Failed? { return; }
    RuleKeeps(cfg, base, zs, r1.w, InternalKey(cfg, ForwardingRules),
              InternalRuleSpec(cfg, InternalKey(cfg, BackendServices), InternalKey(cfg, Addresses), r1.value));
  }

  lemma InternalServiceKeeps(cfg: Config, base: Cloud, zs: set<string>, w: World, zones: seq<string>)
    requires SoundRun(cfg, base, zs, w) && WantsInternal(cfg) && Ready(cfg, zs, w, zones)
    ensures var r := CreateInternalService(cfg, w, GroupLinks(cfg, zones));
      && SoundRun(cfg, base, zs, r.w)
      && OnlyScope(w, r.w, Regional(cfg.region)) && r.w.net.external == w.net.external && r.w.host == w.host
      && (r.Done? ==>
            && r.value == InternalKey(cfg, BackendServices) && r.value in r.w.cloud
            && InternalKey(cfg, HealthChecks) in r.w.cloud
            && |BackendsOf(r.w.cloud[r.value])| == |zones|
            && r.w.net.internal == w.net.internal.(healthCheck := Some(InternalKey(cfg, HealthChecks)),
                                                   backendService := Some(r.value)))
      && Faults(r.w.oracle) <= Faults(w.oracle)
      && (r.Failed? ==> Faults(r.w.oracle) < Faults(w.oracle))
  {
    hide SoundLog, Sound, Fits, Own, Wanted, FitsSpec, References, CreateOrGet, CreateBackendService,
      CreateForwardingRule, Faults;
    InternalFits(cfg, zs);
    var check := InternalKey(cfg, HealthChecks);
    CreateKeeps(cfg, base, zs, w, check, HealthCheck(cfg.region));
    CreateFacts(w, check, HealthCheck(cfg.region));
    var r1 := CreateOrGet(w, check, HealthCheck(cfg.region));
    if r1.Failed? { return; }
    var w1 := SetInternal(r1.w, r1.w.net.internal.(healthCheck := Some(check)));
    InternalBackendFits(cfg, zs, w1, zones);
    BackendServiceKeeps(cfg, base, zs, w1, InternalKey(cfg, BackendServices),
                        InternalBackendSpec(cfg, GroupLinks(cfg, zones), check));
  }

  lemma CreateInternalKeeps(cfg: Config, base: Cloud, zs: set<string>, w: World, zones: seq<string>)
    requires SoundRun(cfg, base, zs, w) && WantsInternal(cfg) && Ready(cfg, zs, w, zones)
    ensures var r := CreateInternal(cfg, w, GroupLinks(cfg, zones));
      && SoundRun(cfg, base, zs, r.w)
      && OnlyScope(w, r.w, Regional(cfg.region)) && r.w.net.external == w.net.external
      && (Type(cfg).Internal? || r.w.host == w.host)
      && (r.Done? ==> InternalSettled(cfg, |zones|, r.w) && SubnetReady(cfg, base, cfg.subnets))
      && Faults(r.w.oracle) <= Faults(w.oracle)
      && (r.Failed? && SubnetReady(cfg, base, cfg.subnets) ==> Faults(r.w.oracle) < Faults(w.oracle))
  {
    hide SoundLog, Sound, Fits, Own, Wanted, FitsSpec, References, CreateOrGet, CreateBackendService,
      CreateForwardingRule, Faults, CreateInternalService, CreateInternalAddress, CreateInternalRule, SubnetReady;
    InternalServiceKeeps(cfg, base, zs, w, zones);
    var r1 := CreateInternalService(cfg, w, GroupLinks(cfg, zones));
    if r1.Failed? { return; }
    InternalAddressKeeps(cfg, base, zs, r1.w);
    var r2 := CreateInternalAddress(cfg, r1.w);
    if r2.Failed? { return; }
    InternalRuleKeeps(cfg, base, zs, r2.w);
  }

  // ----- Reconcile -----

  ghost predicate Settled(cfg: Config, zones: seq<string>, w: World) {
    && w.net.groups.Some?
    && (forall z :: z in zones ==>
          && z in w.net.groups.value && w.net.groups.value[z] == GroupKey(cfg, z) && GroupKey(cfg, z) in w.cloud)
    && (WantsExternal(cfg) ==> ExternalSettled(cfg, |zones|, w))
    && (WantsInternal(cfg) ==> InternalSettled(cfg, |zones|, w))
  }

  /** The internal chain leaves a settled external chain settled. */
  lemma ExternalStays(cfg: Config, count: nat, w: World, w': World)
    requires ExternalSettled(cfg, count, w) && OnlyScope(w, w', Regional(cfg.region))
    requires w'.net.external == w.net.external && w'.host == w.host
    ensures ExternalSettled(cfg, count, w')
  {
  }

  lemma ReconcileKeeps(cfg: Config, base: Cloud, zs: set<string>, w: World, zones: seq<string>)
    requires SoundRun(cfg, base, zs, w) && Distinct(zones) && (forall z :: z in zones ==> z in zs)
    ensures var r := Reconcile(cfg, w, zones);
      && SoundRun(cfg, base, zs, r.w)
      && r.w.finalizer == w.finalizer
      && (r.Done? ==> Settled(cfg, zones, r.w))
      && (r.Done? && WantsInternal(cfg) ==> SubnetReady(cfg, base, cfg.subnets))
      && Faults(r.w.oracle) <= Faults(w.oracle)
      && (r.Failed? && (WantsInternal(cfg) ==> SubnetReady(cfg, base, cfg.subnets)) ==>
            Faults(r.w.oracle) < Faults(w.oracle))
  {
    hide SoundLog, Sound, Faults, SubnetReady, CreateGroups, CreateExternal, CreateInternal, GroupKey,
      ExternalSettled, InternalSettled;
    CreateGroupsKeeps(cfg, base, zs, w, zones);
    var r1 := CreateGroups(cfg, w, zones);
    if r1.Failed? { return; }
    var r2: Step<()> := if WantsExternal(cfg) then CreateExternal(cfg, r1.w, r1.value) else Done(r1.w, ());
    if WantsExternal(cfg) {
      CreateExternalKeeps(cfg, base, zs, r1.w, zones);
    }
    if r2.Failed? || !WantsInternal(cfg) { return; }
    CreateInternalKeeps(cfg, base, zs, r2.w, zones);
    if WantsExternal(cfg) {
      ExternalStays(cfg, |zones|, r2.w, CreateInternal(cfg, r2.w, r1.value).w);
    }
  }

  /** Reconcile removes nothing, and records no zones but those it was given. */
  lemma ReconcileGrows(cfg: Config, base: Cloud, zs: set<string>, w: World, zones: seq<string>)
    requires SoundRun(cfg, base, zs, w) && Distinct(zones) && (forall z :: z in zones ==> z in zs)
    ensures var r := Reconcile(cfg, w, zones);
      && w.cloud.Keys <= r.w.cloud.Keys
      && (r.Done? ==> forall z :: z in r.w.net.groups.GetOr(map[]) ==> z in w.net.groups.GetOr(map[]) || z in zones)
  {
    hide SoundLog, Sound, Faults, SubnetReady, CreateGroups, CreateExternal, CreateInternal, GroupKey,
      ExternalSettled, InternalSettled;
    CreateGroupsKeeps(cfg, base, zs, w, zones);
    var r1 := CreateGroups(cfg, w, zones);
    if r1.Failed? { return; }
    var r2: Step<()> := if WantsExternal(cfg) then CreateExternal(cfg, r1.w, r1.value) else Done(r1.w, ());
    if WantsExternal(cfg) {
      CreateExternalKeeps(cfg, base, zs, r1.w, zones);
    }
    if r2.Failed? || !WantsInternal(cfg) { return; }
    CreateInternalKeeps(cfg, base, zs, r2.w, zones);
  }
}
