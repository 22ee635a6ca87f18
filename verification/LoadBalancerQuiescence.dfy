/** A fault-free Reconcile of a settled world changes nothing. */
module LoadBalancerQuiescence {
  import opened CloudApi
  import opened LoadBalancerSpec
  import opened LoadBalancerInvariant
  import opened LoadBalancerSteps
  import opened LoadBalancerChains

  /** The number of requests in a log that ask the cloud to change something. */
  function Mutations(log: seq<Event>): nat {
    if log == [] then 0
    else Mutations(log[..|log| - 1]) + (if log[|log| - 1].request.Mutates() then 1 else 0)
  }

  /** From `w` to `w'` nothing changed, no call failed, and `n` mutating requests were sent. */
  ghost predicate Calm(w: World, w': World, n: nat) {
    && w'.cloud == w.cloud && w'.net == w.net && w'.host == w.host && w'.finalizer == w.finalizer
    && Faults(w'.oracle) == 0
    && Mutations(w'.log) == Mutations(w.log) + n
  }

  lemma CalmCall(w: World, request: Request)
    requires Faults(w.oracle) == 0
    ensures Next(w).fault.Works?
    ensures Calm(w, Called(w, request, w.cloud), if request.Mutates() then 1 else 0)
  {
    FaultsStep(w, request, w.cloud);
    var log := Called(w, request, w.cloud).log;
    assert log[..|log| - 1] == w.log;
  }

  lemma CalmGet(w: World, k: Key, spec: Resource)
    requires Faults(w.oracle) == 0 && k in w.cloud
    ensures var w' := Called(w, Get(k), w.cloud);
      && GetCall(w, k) == Done(w', Found(k, w.cloud[k]))
      && CreateOrGet(w, k, spec) == Done(w', Found(k, w.cloud[k]))
      && Calm(w, w', 0)
  {
    CalmCall(w, Get(k));
  }

  lemma {:induction false} CalmGroups(cfg: Config, w: World, zones: seq<string>, m: map<string, Link>)
    requires Faults(w.oracle) == 0 && w.net.groups == Some(m)
    requires forall z :: z in zones ==> z in m && m[z] == GroupKey(cfg, z) && GroupKey(cfg, z) in w.cloud
    ensures var r := CreateGroupsFrom(cfg, w, zones, m, true);
      r.Done? && r.value == m && Calm(w, r.w, 0)
    decreases |zones|
  {
    if zones != [] {
      var k := GroupKey(cfg, zones[0]);
      CalmGet(w, k, GroupSpec(cfg));
      var w1 := Called(w, Get(k), w.cloud);
      assert m[zones[0] := k] == m;
      assert w1.(net := w1.net.(groups := Some(m))) == w1;
      CalmGroups(cfg, w1, zones[1..], m);
    }
  }

  lemma CalmService(w: World, k: Key, spec: Resource)
    requires Faults(w.oracle) == 0 && k in w.cloud && |BackendsOf(w.cloud[k])| == |BackendsOf(spec)|
    ensures var r := CreateBackendService(w, k, spec);
      r.Done? && r.value == Found(k, w.cloud[k]) && Calm(w, r.w, 0)
  {
    CalmGet(w, k, spec);
  }

  /** Labels that are present but empty never compare equal to what the cloud returns. */
  function LabelRequests(cfg: Config): nat { if cfg.labels == Some(map[]) then 1 else 0 }

  lemma CalmRule(cfg: Config, w: World, k: Key, spec: Resource)
    requires Faults(w.oracle) == 0 && k in w.cloud && w.cloud[k].ForwardingRule?
    requires LabelsOf(w.cloud[k]) == StoredLabels(cfg.labels)
    ensures var r := CreateForwardingRule(cfg, w, k, spec);
      r.Done? && r.value == Found(k, w.cloud[k]) && Calm(w, r.w, LabelRequests(cfg))
  {
    CalmGet(w, k, spec);
    var w1 := Called(w, Get(k), w.cloud);
    CalmCall(w1, SetLabels(k));
    assert w.cloud[k := WithLabels(w.cloud[k], cfg.labels)] == w.cloud;
  }

  lemma {:induction false} CalmSubnet(cfg: Config, w: World, specs: seq<SubnetSpec>)
    requires Faults(w.oracle) == 0 && SubnetReady(cfg, w.cloud, specs)
    ensures var r := GetSubnet(cfg, w, specs); r.Done? && Calm(w, r.w, 0)
    decreases |specs|
  {
    var k := SubnetKey(cfg, specs[0]);
    CalmGet(w, k, Subnetwork);
    if !(WantedSubnet(cfg) == "" || HasSuffix(specs[0].name, WantedSubnet(cfg))) {
      CalmSubnet(cfg, Called(w, Get(k), w.cloud), specs[1..]);
    }
  }

  lemma CalmExternal(cfg: Config, w: World, groups: seq<Link>)
    requires Faults(w.oracle) == 0 && ExternalSettled(cfg, |groups|, w)
    requires w.cloud[ExternalKey(cfg, ForwardingRules)].ForwardingRule?
    ensures var r := CreateExternal(cfg, w, groups); r.Done? && Calm(w, r.w, LabelRequests(cfg))
  {
    hide CreateOrGet, CreateBackendService, CreateForwardingRule, Faults, Mutations, ExternalKey, LabelRequests;
    var check, service, proxy, address, rule :=
      ExternalKey(cfg, HealthChecks), ExternalKey(cfg, BackendServices), ExternalKey(cfg, TargetTcpProxies),
      ExternalKey(cfg, Addresses), ExternalKey(cfg, ForwardingRules);
    CalmGet(w, check, HealthCheck(""));
    var w1 := CreateOrGet(w, check, HealthCheck("")).w;
    assert SetExternal(w1, w1.net.external.(healthCheck := Some(check))) == w1;
    var spec := ExternalBackendSpec(cfg, groups, check);
    CalmService(w1, service, spec);
    var w2 := CreateBackendService(w1, service, spec).w;
    assert SetExternal(w2, w2.net.external.(backendService := Some(service))) == w2;
    CalmGet(w2, proxy, TargetTcpProxy(service));
    var w3 := CreateOrGet(w2, proxy, TargetTcpProxy(service)).w;
    assert SetExternal(w3, w3.net.external.(targetProxy := Some(proxy))) == w3;
    CalmGet(w3, address, Address(ExternalScheme, "", "", None, ""));
    var w4 := CreateOrGet(w3, address, Address(ExternalScheme, "", "", None, "")).w;
    assert SetExternal(w4, w4.net.external.(address := Some(address))).(host := IpOf(w4.cloud[address])) == w4;
    CalmRule(cfg, w4, rule, ExternalRuleSpec(cfg, proxy, address));
    var w5 := CreateForwardingRule(cfg, w4, rule, ExternalRuleSpec(cfg, proxy, address)).w;
    assert SetExternal(w5, w5.net.external.(forwardingRule := Some(rule))) == w5;
  }

  lemma CalmInternal(cfg: Config, w: World, groups: seq<Link>)
    requires Faults(w.oracle) == 0 && InternalSettled(cfg, |groups|, w) && SubnetReady(cfg, w.cloud, cfg.subnets)
    requires w.cloud[InternalKey(cfg, ForwardingRules)].ForwardingRule?
    ensures var r := CreateInternal(cfg, w, groups); r.Done? && Calm(w, r.w, LabelRequests(cfg))
  {
    hide CreateOrGet, CreateBackendService, CreateForwardingRule, Faults, Mutations, InternalKey, LabelRequests,
      SubnetReady, GetSubnet;
    var check, service, address, rule :=
      InternalKey(cfg, HealthChecks), InternalKey(cfg, BackendServices), InternalKey(cfg, Addresses),
      InternalKey(cfg, ForwardingRules);
    CalmGet(w, check, HealthCheck(cfg.region));
    var w1 := CreateOrGet(w, check, HealthCheck(cfg.region)).w;
    assert SetInternal(w1, w1.net.internal.(healthCheck := Some(check))) == w1;
    var spec := InternalBackendSpec(cfg, groups, check);
    CalmService(w1, service, spec);
    var w2 := CreateBackendService(w1, service, spec).w;
    assert SetInternal(w2, w2.net.internal.(backendService := Some(service))) == w2;
    CalmSubnet(cfg, w2, cfg.subnets);
    var r3 := GetSubnet(cfg, w2, cfg.subnets);
    CalmGet(r3.w, address, InternalAddressSpec(cfg, r3.value));
    var w4 := CreateOrGet(r3.w, address, InternalAddressSpec(cfg, r3.value)).w;
    assert SetInternal(w4, w4.net.internal.(address := Some(address)))
             .(host := if Type(cfg).Internal? then IpOf(w4.cloud[address]) else w4.host) == w4;
    CalmSubnet(cfg, w4, cfg.subnets);
    var r5 := GetSubnet(cfg, w4, cfg.subnets);
    var rspec := InternalRuleSpec(cfg, service, address, r5.value);
    CalmRule(cfg, r5.w, rule, rspec);
    var w6 := CreateForwardingRule(cfg, r5.w, rule, rspec).w;
    assert SetInternal(w6, w6.net.internal.(forwardingRule := Some(rule))) == w6;
  }

  /** The label requests a settled Reconcile sends: none, unless the labels are present but empty. */
  function RoundRequests(cfg: Config): nat {
    (if WantsExternal(cfg) then LabelRequests(cfg) else 0) + (if WantsInternal(cfg) then LabelRequests(cfg) else 0)
  }

  lemma RulesAreRules(cfg: Config, base: Cloud, zs: set<string>, c: Cloud)
    requires Sound(cfg, base, zs, c)
    ensures WantsExternal(cfg) && ExternalKey(cfg, ForwardingRules) in c ==>
              c[ExternalKey(cfg, ForwardingRules)].ForwardingRule?
    ensures WantsInternal(cfg) && InternalKey(cfg, ForwardingRules) in c ==>
              c[InternalKey(cfg, ForwardingRules)].ForwardingRule?
  {
    assert WantsExternal(cfg) ==> Own(cfg, ExternalKey(cfg, ForwardingRules));
    assert WantsInternal(cfg) ==> Own(cfg, InternalKey(cfg, ForwardingRules));
  }

  lemma CalmReconcile(cfg: Config, base: Cloud, zs: set<string>, w: World, zones: seq<string>)
    requires Faults(w.oracle) == 0 && Sound(cfg, base, zs, w.cloud) && Settled(cfg, zones, w)
    requires WantsInternal(cfg) ==> SubnetReady(cfg, base, cfg.subnets)
    ensures var r := Reconcile(cfg, w, zones); r.Done? && Calm(w, r.w, RoundRequests(cfg))
  {
    hide Sound, CreateExternal, CreateInternal, CreateGroupsFrom, SubnetReady, Faults, Mutations,
      GroupKey, ExternalKey, InternalKey, LabelRequests;
    SubnetReadyKeeps(cfg, base, zs, w.cloud, cfg.subnets);
    RulesAreRules(cfg, base, zs, w.cloud);
    CalmGroups(cfg, w, zones, w.net.groups.value);
    var w1 := CreateGroupsFrom(cfg, w, zones, w.net.groups.value, true).w;
    assert w1.(net := w1.net.(groups := Some(w.net.groups.value))) == w1;
    var groups := GroupLinks(cfg, zones);
    if WantsExternal(cfg) { CalmExternal(cfg, w1, groups); }
    var w2 := if WantsExternal(cfg) then CreateExternal(cfg, w1, groups).w else w1;
    if WantsInternal(cfg) { CalmInternal(cfg, w2, groups); }
  }
}
