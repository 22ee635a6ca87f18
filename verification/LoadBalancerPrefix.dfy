/** What a round does depends on no earlier call: the log of the calls before it is only carried along. */
module LoadBalancerPrefix {
  import opened CloudApi
  import opened LoadBalancerSpec

  function Prefixed(l: seq<Event>, w: World): World { w.(log := l + w.log) }

  function PrefixedStep<T>(l: seq<Event>, r: Step<T>): Step<T> {
    match r
    case Done(w, value) => Done(Prefixed(l, w), value)
    case Failed(w, error) => Failed(Prefixed(l, w), error)
  }

  lemma PrefixCalled(l: seq<Event>, w: World, request: Request, c: Cloud)
    ensures Called(Prefixed(l, w), request, c) == Prefixed(l, Called(w, request, c))
  {
    assert l + (w.log + [Event(request, c, w.finalizer)]) == l + w.log + [Event(request, c, w.finalizer)];
  }

  lemma PrefixGet(l: seq<Event>, w: World, k: Key)
    ensures GetCall(Prefixed(l, w), k) == PrefixedStep(l, GetCall(w, k))
  {
    PrefixCalled(l, w, Get(k), w.cloud);
  }

  lemma PrefixMutation(l: seq<Event>, w: World, request: Request, applied: Cloud)
    ensures Mutation(Prefixed(l, w), request, applied) == PrefixedStep(l, Mutation(w, request, applied))
  {
    PrefixCalled(l, w, request, w.cloud);
    PrefixCalled(l, w, request, applied);
  }

  lemma PrefixInsert(l: seq<Event>, w: World, k: Key, r: Resource)
    ensures InsertCall(Prefixed(l, w), k, r) == PrefixedStep(l, InsertCall(w, k, r))
  {
    PrefixCalled(l, w, Insert(k), w.cloud);
    PrefixMutation(l, w, Insert(k), w.cloud[k := Stored(r, Next(w))]);
  }

  lemma PrefixUpdate(l: seq<Event>, w: World, k: Key, r: Resource)
    ensures UpdateCall(Prefixed(l, w), k, r) == PrefixedStep(l, UpdateCall(w, k, r))
  {
    PrefixCalled(l, w, Update(k), w.cloud);
    PrefixMutation(l, w, Update(k), w.cloud[k := r]);
  }

  lemma PrefixLabels(l: seq<Event>, w: World, k: Key, labels: Option<Labels>)
    ensures SetLabelsCall(Prefixed(l, w), k, labels) == PrefixedStep(l, SetLabelsCall(w, k, labels))
  {
    PrefixCalled(l, w, SetLabels(k), w.cloud);
    if k in w.cloud { PrefixMutation(l, w, SetLabels(k), w.cloud[k := WithLabels(w.cloud[k], labels)]); }
  }

  lemma PrefixDelete(l: seq<Event>, w: World, k: Key)
    ensures DeleteCall(Prefixed(l, w), k) == PrefixedStep(l, DeleteCall(w, k))
    ensures DeleteIfPresent(Prefixed(l, w), k) == PrefixedStep(l, DeleteIfPresent(w, k))
  {
    PrefixCalled(l, w, Delete(k), w.cloud);
    PrefixMutation(l, w, Delete(k), w.cloud - {k});
  }

  lemma PrefixCreate(l: seq<Event>, w: World, k: Key, spec: Resource)
    ensures CreateOrGet(Prefixed(l, w), k, spec) == PrefixedStep(l, CreateOrGet(w, k, spec))
  {
    hide GetCall, InsertCall;
    PrefixGet(l, w, k);
    var w1 := GetCall(w, k).w;
    PrefixInsert(l, w1, k, spec);
    PrefixGet(l, InsertCall(w1, k, spec).w, k);
  }

  lemma PrefixService(l: seq<Event>, w: World, k: Key, spec: Resource)
    ensures CreateBackendService(Prefixed(l, w), k, spec) == PrefixedStep(l, CreateBackendService(w, k, spec))
  {
    hide CreateOrGet, UpdateCall;
    PrefixCreate(l, w, k, spec);
    var r := CreateOrGet(w, k, spec);
    if r.Done? { PrefixUpdate(l, r.w, k, WithBackends(r.value.resource, BackendsOf(spec))); }
  }

  lemma PrefixRule(l: seq<Event>, cfg: Config, w: World, k: Key, spec: Resource)
    ensures CreateForwardingRule(cfg, Prefixed(l, w), k, spec) == PrefixedStep(l, CreateForwardingRule(cfg, w, k, spec))
  {
    hide CreateOrGet, SetLabelsCall;
    PrefixCreate(l, w, k, spec);
    var r := CreateOrGet(w, k, spec);
    if r.Done? { PrefixLabels(l, r.w, k, cfg.labels); }
  }

  lemma {:induction false} PrefixSubnet(l: seq<Event>, cfg: Config, w: World, specs: seq<SubnetSpec>)
    ensures GetSubnet(cfg, Prefixed(l, w), specs) == PrefixedStep(l, GetSubnet(cfg, w, specs))
    decreases |specs|
  {
    hide GetCall;
    if specs != [] {
      PrefixGet(l, w, SubnetKey(cfg, specs[0]));
      PrefixSubnet(l, cfg, GetCall(w, SubnetKey(cfg, specs[0])).w, specs[1..]);
    }
  }

  lemma {:induction false} PrefixGroups(l: seq<Event>, cfg: Config, w: World, zones: seq<string>, m: map<string, Link>,
                                        shared: bool)
    ensures CreateGroupsFrom(cfg, Prefixed(l, w), zones, m, shared)
         == PrefixedStep(l, CreateGroupsFrom(cfg, w, zones, m, shared))
    decreases |zones|
  {
    hide CreateOrGet;
    if zones != [] {
      PrefixCreate(l, w, GroupKey(cfg, zones[0]), GroupSpec(cfg));
      var r := CreateOrGet(w, GroupKey(cfg, zones[0]), GroupSpec(cfg));
      if r.Done? {
        var m1 := m[zones[0] := r.value.link];
        PrefixGroups(l, cfg, if shared then r.w.(net := r.w.net.(groups := Some(m1))) else r.w, zones[1..], m1, shared);
      }
    }
  }

  // ----- the chains -----

  lemma PrefixExternalService(l: seq<Event>, cfg: Config, w: World, groups: seq<Link>)
    ensures CreateExternalService(cfg, Prefixed(l, w), groups) == PrefixedStep(l, CreateExternalService(cfg, w, groups))
  {
    hide CreateOrGet, CreateBackendService, ExternalBackendSpec;
    PrefixCreate(l, w, ExternalKey(cfg, HealthChecks), HealthCheck(""));
    var r := CreateOrGet(w, ExternalKey(cfg, HealthChecks), HealthCheck(""));
    if r.Done? {
      var w1 := SetExternal(r.w, r.w.net.external.(healthCheck := Some(r.value.link)));
      PrefixService(l, w1, ExternalKey(cfg, BackendServices), ExternalBackendSpec(cfg, groups, r.value.link));
    }
  }

  lemma PrefixProxy(l: seq<Event>, cfg: Config, w: World, service: Link)
    ensures CreateProxy(cfg, Prefixed(l, w), service) == PrefixedStep(l, CreateProxy(cfg, w, service))
  {
    hide CreateOrGet;
    PrefixCreate(l, w, ExternalKey(cfg, TargetTcpProxies), TargetTcpProxy(service));
  }

  lemma PrefixFrontend(l: seq<Event>, cfg: Config, w: World, proxy: Link)
    ensures CreateExternalFrontend(cfg, Prefixed(l, w), proxy) == PrefixedStep(l, CreateExternalFrontend(cfg, w, proxy))
  {
    hide CreateOrGet, CreateForwardingRule;
    var spec := Address(ExternalScheme, "", "", None, "");
    PrefixCreate(l, w, ExternalKey(cfg, Addresses), spec);
    var r := CreateOrGet(w, ExternalKey(cfg, Addresses), spec);
    if r.Done? {
      var w1 := SetExternal(r.w, r.w.net.external.(address := Some(r.value.link))).(host := IpOf(r.value.resource));
      PrefixRule(l, cfg, w1, ExternalKey(cfg, ForwardingRules), ExternalRuleSpec(cfg, proxy, r.value.link));
    }
  }

  lemma PrefixExternal(l: seq<Event>, cfg: Config, w: World, groups: seq<Link>)
    ensures CreateExternal(cfg, Prefixed(l, w), groups) == PrefixedStep(l, CreateExternal(cfg, w, groups))
  {
    hide CreateExternalService, CreateProxy, CreateExternalFrontend;
    PrefixExternalService(l, cfg, w, groups);
    var r1 := CreateExternalService(cfg, w, groups);
    if r1.Failed? { return; }
    PrefixProxy(l, cfg, r1.w, r1.value);
    var r2 := CreateProxy(cfg, r1.w, r1.value);
    if r2.Failed? { return; }
    PrefixFrontend(l, cfg, r2.w, r2.value);
  }

  lemma PrefixInternalService(l: seq<Event>, cfg: Config, w: World, groups: seq<Link>)
    ensures CreateInternalService(cfg, Prefixed(l, w), groups) == PrefixedStep(l, CreateInternalService(cfg, w, groups))
  {
    hide CreateOrGet, CreateBackendService, InternalBackendSpec;
    PrefixCreate(l, w, InternalKey(cfg, HealthChecks), HealthCheck(cfg.region));
    var r := CreateOrGet(w, InternalKey(cfg, HealthChecks), HealthCheck(cfg.region));
    if r.Done? {
      var w1 := SetInternal(r.w, r.w.net.internal.(healthCheck := Some(r.value.link)));
      PrefixService(l, w1, InternalKey(cfg, BackendServices), InternalBackendSpec(cfg, groups, r.value.link));
    }
  }

  lemma PrefixAddress(l: seq<Event>, cfg: Config, w: World)
    ensures CreateInternalAddress(cfg, Prefixed(l, w)) == PrefixedStep(l, CreateInternalAddress(cfg, w))
  {
    hide CreateOrGet, GetSubnet;
    PrefixSubnet(l, cfg, w, cfg.subnets);
    var r := GetSubnet(cfg, w, cfg.subnets);
    if r.Done? { PrefixCreate(l, r.w, InternalKey(cfg, Addresses), InternalAddressSpec(cfg, r.value)); }
  }

  lemma PrefixInternalRule(l: seq<Event>, cfg: Config, w: World, service: Link, address: Link)
    ensures CreateInternalRule(cfg, Prefixed(l, w), service, address)
         == PrefixedStep(l, CreateInternalRule(cfg, w, service, address))
  {
    hide CreateForwardingRule, GetSubnet;
    PrefixSubnet(l, cfg, w, cfg.subnets);
    var r := GetSubnet(cfg, w, cfg.subnets);
    if r.Done? {
      PrefixRule(l, cfg, r.w, InternalKey(cfg, ForwardingRules), InternalRuleSpec(cfg, service, address, r.value));
    }
  }

  lemma PrefixInternal(l: seq<Event>, cfg: Config, w: World, groups: seq<Link>)
    ensures CreateInternal(cfg, Prefixed(l, w), groups) == PrefixedStep(l, CreateInternal(cfg, w, groups))
  {
    hide CreateInternalService, CreateInternalAddress, CreateInternalRule;
    PrefixInternalService(l, cfg, w, groups);
    var r1 := CreateInternalService(cfg, w, groups);
    if r1.Failed? { return; }
    PrefixAddress(l, cfg, r1.w);
    var r2 := CreateInternalAddress(cfg, r1.w);
    if r2.Failed? { return; }
    PrefixInternalRule(l, cfg, r2.w, r1.value, r2.value);
  }

  lemma PrefixReconcile(l: seq<Event>, cfg: Config, w: World, zones: seq<string>)
    ensures Reconcile(cfg, Prefixed(l, w), zones) == PrefixedStep(l, Reconcile(cfg, w, zones))
  {
    hide CreateGroupsFrom, CreateExternal, CreateInternal;
    PrefixGroups(l, cfg, w, zones, w.net.groups.GetOr(map[]), w.net.groups.Some?);
    var r1 := CreateGroups(cfg, w, zones);
    assert CreateGroups(cfg, Prefixed(l, w), zones) == PrefixedStep(l, r1);
    if r1.Done? {
      PrefixExternal(l, cfg, r1.w, r1.value);
      var r2: Step<()> := if WantsExternal(cfg) then CreateExternal(cfg, r1.w, r1.value) else Done(r1.w, ());
      PrefixInternal(l, cfg, r2.w, r1.value);
    }
  }

  lemma PrefixDeleteExternal(l: seq<Event>, cfg: Config, w: World)
    ensures DeleteExternal(cfg, Prefixed(l, w)) == PrefixedStep(l, DeleteExternal(cfg, w))
  {
    hide DeleteIfPresent;
    PrefixDelete(l, w, ExternalKey(cfg, ForwardingRules));
    var r1 := DeleteIfPresent(w, ExternalKey(cfg, ForwardingRules));
    if r1.Failed? { return; }
    var w1 := SetExternal(r1.w, r1.w.net.external.(forwardingRule := None));
    PrefixDelete(l, w1, ExternalKey(cfg, Addresses));
    var r2 := DeleteIfPresent(w1, ExternalKey(cfg, Addresses));
    if r2.Failed? { return; }
    var w2 := SetExternal(r2.w, r2.w.net.external.(address := None));
    PrefixDelete(l, w2, ExternalKey(cfg, TargetTcpProxies));
    var r3 := DeleteIfPresent(w2, ExternalKey(cfg, TargetTcpProxies));
    if r3.Failed? { return; }
    var w3 := SetExternal(r3.w, r3.w.net.external.(targetProxy := None));
    PrefixDelete(l, w3, ExternalKey(cfg, BackendServices));
    var r4 := DeleteIfPresent(w3, ExternalKey(cfg, BackendServices));
    if r4.Failed? { return; }
    PrefixDelete(l, SetExternal(r4.w, r4.w.net.external.(backendService := None)), ExternalKey(cfg, HealthChecks));
  }

  lemma PrefixDeleteInternal(l: seq<Event>, cfg: Config, w: World)
    ensures DeleteInternal(cfg, Prefixed(l, w)) == PrefixedStep(l, DeleteInternal(cfg, w))
  {
    hide DeleteIfPresent;
    PrefixDelete(l, w, InternalKey(cfg, ForwardingRules));
    var r1 := DeleteIfPresent(w, InternalKey(cfg, ForwardingRules));
    if r1.Failed? { return; }
    var w1 := SetInternal(r1.w, r1.w.net.internal.(forwardingRule := None));
    PrefixDelete(l, w1, InternalKey(cfg, Addresses));
    var r2 := DeleteIfPresent(w1, InternalKey(cfg, Addresses));
    if r2.Failed? { return; }
    var w2 := SetInternal(r2.w, r2.w.net.internal.(address := None));
    PrefixDelete(l, w2, InternalKey(cfg, BackendServices));
    var r3 := DeleteIfPresent(w2, InternalKey(cfg, BackendServices));
    if r3.Failed? { return; }
    PrefixDelete(l, SetInternal(r3.w, r3.w.net.internal.(backendService := None)), InternalKey(cfg, HealthChecks));
  }

  lemma {:induction false} PrefixDeleteGroups(l: seq<Event>, cfg: Config, w: World, order: seq<string>)
    ensures DeleteGroups(cfg, Prefixed(l, w), order) == PrefixedStep(l, DeleteGroups(cfg, w, order))
    decreases |order|
  {
    hide DeleteCall;
    if order != [] {
      PrefixDelete(l, w, GroupKey(cfg, order[0]));
      var r := DeleteCall(w, GroupKey(cfg, order[0]));
      PrefixDeleteGroups(l, cfg, r.w, order[1..]);
      PrefixDeleteGroups(l, cfg, r.w.(net := DropGroup(r.w.net, order[0])), order[1..]);
    }
  }

  lemma PrefixDeleteAll(l: seq<Event>, cfg: Config, w: World, order: seq<string>)
    ensures var (w', ok) := DeleteAll(cfg, w, order); DeleteAll(cfg, Prefixed(l, w), order) == (Prefixed(l, w'), ok)
  {
    hide DeleteExternal, DeleteInternal, DeleteGroups;
    PrefixDeleteExternal(l, cfg, w);
    var r1: Step<()> := if WantsExternal(cfg) then DeleteExternal(cfg, w) else Done(w, ());
    PrefixDeleteInternal(l, cfg, r1.w);
    var r2: Step<()> := if WantsInternal(cfg) then DeleteInternal(cfg, r1.w) else Done(r1.w, ());
    PrefixDeleteGroups(l, cfg, r2.w, order);
  }
}
