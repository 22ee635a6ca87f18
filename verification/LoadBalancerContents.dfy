/**
  What the load balancer is made of, read off the cluster's spec: which chains exist under which names, and the ports,
  networks, subnets and limits of every resource a run leaves behind.
 */
module LoadBalancerContents {
  import opened CloudApi
  import opened LoadBalancerSpec
  import opened LoadBalancerInvariant
  import opened LoadBalancerSteps
  import opened LoadBalancerChains
  import opened LoadBalancerDelete
  import opened LoadBalancerRuns

  // ----- which chains there are -----

  function GlobalKey(cfg: Config, kind: Kind): Key { Key(kind, Global, cfg.name + "-apiserver") }

  function RegionalKey(cfg: Config, kind: Kind): Key {
    Key(kind, Regional(cfg.region),
        if cfg.internal.Some? && cfg.internal.value.name.Some? then cfg.name + "-" + cfg.internal.value.name.value
        else cfg.name + "-api-internal")
  }

  function GlobalChain(cfg: Config): set<Key> {
    {GlobalKey(cfg, HealthChecks), GlobalKey(cfg, BackendServices), GlobalKey(cfg, TargetTcpProxies),
     GlobalKey(cfg, Addresses), GlobalKey(cfg, ForwardingRules)}
  }

  function RegionalChain(cfg: Config): set<Key> {
    {RegionalKey(cfg, HealthChecks), RegionalKey(cfg, BackendServices), RegionalKey(cfg, Addresses),
     RegionalKey(cfg, ForwardingRules)}
  }

  lemma SameKeys(cfg: Config, kind: Kind)
    ensures ExternalKey(cfg, kind) == GlobalKey(cfg, kind) && InternalKey(cfg, kind) == RegionalKey(cfg, kind)
  {
    assert cfg.name + "-" + "apiserver" == cfg.name + "-apiserver";
    assert cfg.name + "-" + "api-internal" == cfg.name + "-api-internal";
  }

  /** The load balancer type decides which keys the service uses. */
  lemma WantedByType(cfg: Config)
    ensures WantsExternal(cfg) == AsksExternal(cfg) && WantsInternal(cfg) == AsksInternal(cfg)
    ensures Wanted(cfg) == (if AsksExternal(cfg) then GlobalChain(cfg) else {}) +
                           (if AsksInternal(cfg) then RegionalChain(cfg) else {})
  {
    hide ExternalKey, InternalKey, GlobalKey, RegionalKey;
    forall kind ensures ExternalKey(cfg, kind) == GlobalKey(cfg, kind)
                        && InternalKey(cfg, kind) == RegionalKey(cfg, kind)
    {
      SameKeys(cfg, kind);
    }
  }

  /** The keys are as in the starting cloud. */
  ghost predicate AsBefore(base: Cloud, c: Cloud, keys: set<Key>) {
    forall k :: k in keys ==> (k in c <==> k in base) && (k in c ==> c[k] == base[k])
  }

  ghost predicate HostAt(w: World, k: Key) { k in w.cloud && w.cloud[k].Address? && w.host == w.cloud[k].ip }

  lemma UnaskedStays(cfg: Config, base: Cloud, zs: set<string>, c: Cloud)
    requires Sound(cfg, base, zs, c)
    ensures !AsksExternal(cfg) ==> AsBefore(base, c, GlobalChain(cfg))
    ensures !AsksInternal(cfg) ==> AsBefore(base, c, RegionalChain(cfg))
  {
    hide Fits, Integrity, Wanted;
    WantedByType(cfg);
  }

  /**
    Whenever a run ends in a Reconcile that returned nil, the chains in the cloud are those of the type: all global
    resources and the host at the global address unless the type is Internal, all regional ones if the type names the
    internal balancer, and the host at the regional address if it is the only one.  A chain that is not asked for is as
    it was at the start.
   */
  lemma TypeDecides(cfg: Config, base: Cloud, w: World, actions: seq<Action>, last: Action)
    requires Ended(cfg, base, w, actions, last)
    ensures var w' := Run(w, actions + [last]);
      && (AsksExternal(cfg) ==> GlobalChain(cfg) <= w'.cloud.Keys && HostAt(w', GlobalKey(cfg, Addresses)))
      && (AsksInternal(cfg) ==> RegionalChain(cfg) <= w'.cloud.Keys)
      && (cfg.lbType == Some(Internal) ==> HostAt(w', RegionalKey(cfg, Addresses)))
      && (!AsksExternal(cfg) ==> AsBefore(base, w'.cloud, GlobalChain(cfg)))
      && (!AsksInternal(cfg) ==> AsBefore(base, w'.cloud, RegionalChain(cfg)))
  {
    hide Run, Round, PossibleRun, SubnetThere, ExternalKey, InternalKey, GlobalKey, RegionalKey, Sound;
    var w', zs := Run(w, actions + [last]), Zones(actions) + ZonesOf(last);
    EndedFacts(cfg, base, w, actions, last);
    HostIsTheAddress(cfg, base, w, actions, last);
    KinSymmetric(cfg, last.cfg);
    KinSoundRun(last.cfg, cfg, base, zs, w');
    UnaskedStays(cfg, base, zs, w'.cloud);
    WantedByType(cfg);
    forall kind ensures ExternalKey(cfg, kind) == GlobalKey(cfg, kind)
                        && InternalKey(cfg, kind) == RegionalKey(cfg, kind)
    {
      SameKeys(cfg, kind);
    }
    SettledKeys(cfg, last.cfg, last.zones, w');
  }

  lemma SettledKeys(cfg: Config, cfg': Config, zones: seq<string>, w: World)
    requires Kin(cfg, cfg') && Settled(cfg', zones, w)
    ensures Wanted(cfg) <= w.cloud.Keys
  {
    KinKeys(cfg, cfg');
  }

  /** A Delete that returns nil, after any run, leaves none of the chains that the type asks for. */
  lemma DeleteClearsByType(cfg: Config, base: Cloud, w: World, actions: seq<Action>, a: Action)
    requires Start(cfg, base, w) && PossibleRun(cfg, w, actions)
    ensures var w0 := Run(w, actions); var (w', ok) := Round(w0, a);
      Possible(cfg, w0, a) && ok && a.DeleteRound? ==>
        && (AsksExternal(cfg) ==> w'.cloud.Keys !! GlobalChain(cfg))
        && (AsksInternal(cfg) ==> w'.cloud.Keys !! RegionalChain(cfg))
  {
    hide DeleteAll, Sound, SoundLog, GlobalChain, RegionalChain, Wanted, Clean;
    StartIsSound(cfg, base, Zones(actions), w);
    RunKeeps(cfg, base, Zones(actions), w, actions);
    var w0 := Run(w, actions);
    if !Possible(cfg, w0, a) || !a.DeleteRound? || !Round(w0, a).1 { return; }
    KinClean(cfg, a.cfg, base);
    KinSoundRun(cfg, a.cfg, base, Zones(actions), w0);
    KinKeys(cfg, a.cfg);
    WantedByType(cfg);
    DeleteAllKeeps(a.cfg, base, Zones(actions), w0.(net := Reload(w0.net)), a.order);
  }

  // ----- what the resources are made of -----

  ghost predicate Suits(cfg: Config, name: string) {
    cfg.internal.None? || cfg.internal.value.subnet.None? ||
    exists front :: name == front + cfg.internal.value.subnet.value
  }

  /** The link is to the first subnet of the spec whose name ends as wanted, in its own region or the cluster's. */
  ghost predicate Picked(cfg: Config, l: Option<Link>) {
    exists i :: PickedAt(cfg, l, i)
  }

  ghost predicate PickedAt(cfg: Config, l: Option<Link>, i: int) {
    && 0 <= i < |cfg.subnets| && Suits(cfg, cfg.subnets[i].name)
    && (forall j :: 0 <= j < i ==> !Suits(cfg, cfg.subnets[j].name))
    && var s := cfg.subnets[i];
       l == Some(Key(Subnetworks, Regional(if s.region != "" then s.region else cfg.region), s.name))
  }

  ghost predicate ServesPort(cfg: Config, port: int) {
    port == if cfg.apiServerPort == 0 then 443 else cfg.apiServerPort
  }

  /** The resource at `k` is what the configuration asks for, leaving aside links to siblings, labels and address. */
  ghost predicate Made(cfg: Config, k: Key, r: Resource) {
    match k.kind
    case InstanceGroups =>
      && k.scope.Zonal? && r == InstanceGroup(if cfg.backendPort.Some? then cfg.backendPort.value else 6443)
      && var tag := if cfg.groupTag.Some? then cfg.groupTag.value else "apiserver";
        k.name == cfg.name + "-" + tag + "-" + k.scope.zone
    case BackendServices =>
      && r.BackendService? && r.network == (if k.scope.Global? then None else cfg.network)
      && (forall b :: b in r.backends ==>
            && (b.mode == Utilization <==> k.scope.Global? && cfg.lbType != Some(InternalExternal))
            && b.maxConnections == if k.scope.Global? && cfg.lbType == Some(InternalExternal) then 1000 else 0)
    case Addresses =>
      && r.Address? && (if k.scope.Global? then r.subnetwork == None else Picked(cfg, r.subnetwork))
      && (!k.scope.Global? && cfg.internal.Some? && cfg.internal.value.ipAddress.Some? ==>
            cfg.internal.value.ipAddress.value == "" || r.ip == cfg.internal.value.ipAddress.value)
    case ForwardingRules =>
      && r.ForwardingRule?
      && if k.scope.Global? then
           r.subnetwork == None && r.ports.PortRange? && r.ports.low == r.ports.high && ServesPort(cfg, r.ports.low)
         else
           && Picked(cfg, r.subnetwork) && r.ports.PortList? && |r.ports.ports| == 2
           && ServesPort(cfg, r.ports.ports[0]) && r.ports.ports[1] == 22623
    case _ => true
  }

  /** The same resource up to labels and backends, and backends only with the wanted limit. */
  ghost predicate Kept(cfg: Config, k: Key, r: Resource, r': Resource) {
    match r
    case BackendService(_, _, _, _, backends, _) =>
      && r'.BackendService? && r' == r.(backends := r'.backends)
      && (r'.backends == backends || Made(cfg, k, r'.(network := if k.scope.Global? then None else cfg.network)))
    case ForwardingRule(_, _, _, _, _, _, _, _, _) => r'.ForwardingRule? && r' == r.(labels := r'.labels)
    case _ => r' == r
  }

  /** Whatever is new in the second cloud is as asked for, and what was there is kept. */
  ghost predicate Adds(cfg: Config, c: Cloud, c': Cloud) {
    forall k :: k in c' ==> (k in c && Kept(cfg, k, c[k], c'[k])) || Made(cfg, k, c'[k])
  }

  lemma KeptIsMade(cfg: Config, cfg': Config, k: Key, r: Resource, r': Resource)
    requires Made(cfg, k, r) && Kept(cfg', k, r, r') && Kin(cfg, cfg')
    ensures Made(cfg, k, r')
  {
  }

  lemma KeptTwice(cfg: Config, k: Key, r: Resource, r1: Resource, r2: Resource)
    requires Kept(cfg, k, r, r1) && Kept(cfg, k, r1, r2)
    ensures Kept(cfg, k, r, r2)
  {
  }

  lemma AddsTwice(cfg: Config, c: Cloud, c1: Cloud, c2: Cloud)
    requires Adds(cfg, c, c1) && Adds(cfg, c1, c2)
    ensures Adds(cfg, c, c2)
  {
    hide Made, Kept, Kin;
    assert Kin(cfg, cfg) by { KinSelf(cfg); }
    forall k | k in c2 ensures (k in c && Kept(cfg, k, c[k], c2[k])) || Made(cfg, k, c2[k]) {
      if !Made(cfg, k, c2[k]) {
        if Made(cfg, k, c1[k]) { KeptIsMade(cfg, cfg, k, c1[k], c2[k]); }
        else { KeptTwice(cfg, k, c[k], c1[k], c2[k]); }
      }
    }
  }

  lemma KinSelf(cfg: Config)
    ensures Kin(cfg, cfg)
  {
  }

  // ----- single calls -----

  lemma StoredIsMade(cfg: Config, k: Key, spec: Resource, o: Outcome)
    requires Made(cfg, k, spec)
    ensures Made(cfg, k, Stored(spec, o))
  {
  }

  lemma SameAdds(cfg: Config, c: Cloud)
    ensures Adds(cfg, c, c)
  {
  }

  lemma CreateAdds(cfg: Config, w: World, k: Key, spec: Resource)
    requires Made(cfg, k, spec)
    ensures Adds(cfg, w.cloud, CreateOrGet(w, k, spec).w.cloud)
  {
    hide Made, Kept, Stored;
    SameAdds(cfg, w.cloud);
    var w1 := GetCall(w, k).w;
    StoredIsMade(cfg, k, spec, Next(w1));
    InsertAdds(cfg, w.cloud, k, Stored(spec, Next(w1)));
  }

  lemma InsertAdds(cfg: Config, c: Cloud, k: Key, r: Resource)
    requires Made(cfg, k, r)
    ensures Adds(cfg, c, c[k := r])
  {
  }

  lemma UpdateAdds(cfg: Config, c: Cloud, k: Key, r: Resource)
    requires k in c && Kept(cfg, k, c[k], r)
    ensures Adds(cfg, c, c[k := r])
  {
  }

  lemma ServiceAdds(cfg: Config, w: World, k: Key, spec: Resource)
    requires Made(cfg, k, spec) && k.kind.BackendServices?
    ensures Adds(cfg, w.cloud, CreateBackendService(w, k, spec).w.cloud)
  {
    hide CreateOrGet, Adds;
    CreateAdds(cfg, w, k, spec);
    CreateFacts(w, k, spec);
    var r := CreateOrGet(w, k, spec);
    if r.Failed? || |BackendsOf(r.value.resource)| == |BackendsOf(spec)| { return; }
    var c1, updated := r.w.cloud, WithBackends(r.value.resource, BackendsOf(spec));
    SameAdds(cfg, c1);
    UpdateAdds(cfg, c1, k, updated);
    AddsTwice(cfg, w.cloud, c1, c1[k := updated]);
    AddsTwice(cfg, w.cloud, c1, c1);
  }

  lemma RuleAdds(cfg: Config, w: World, k: Key, spec: Resource)
    requires Made(cfg, k, spec) && k.kind.ForwardingRules?
    ensures Adds(cfg, w.cloud, CreateForwardingRule(cfg, w, k, spec).w.cloud)
  {
    hide CreateOrGet, Adds, Made;
    CreateAdds(cfg, w, k, spec);
    CreateFacts(w, k, spec);
    var r := CreateOrGet(w, k, spec);
    if r.Failed? || LabelsOf(r.value.resource) == cfg.labels { return; }
    var c1 := r.w.cloud;
    SameAdds(cfg, c1);
    UpdateAdds(cfg, c1, k, WithLabels(c1[k], cfg.labels));
    AddsTwice(cfg, w.cloud, c1, c1[k := WithLabels(c1[k], cfg.labels)]);
  }

  lemma SuitsIff(cfg: Config, name: string)
    ensures Suits(cfg, name) <==> WantedSubnet(cfg) == "" || HasSuffix(name, WantedSubnet(cfg))
  {
    var t := WantedSubnet(cfg);
    if cfg.internal.Some? && cfg.internal.value.subnet.Some? {
      if HasSuffix(name, t) { assert name == name[..|name| - |t|] + t; }
      if t == "" { assert name == name + t; }
    }
  }

  /** The search changes nothing and picks the first subnet that suits. */
  lemma {:induction false} SearchPicks(cfg: Config, w: World, i: nat)
    requires i <= |cfg.subnets| && forall j :: 0 <= j < i ==> !Suits(cfg, cfg.subnets[j].name)
    ensures var r := GetSubnet(cfg, w, cfg.subnets[i..]);
      r.w.cloud == w.cloud && (r.Done? ==> Picked(cfg, Some(r.value)))
    decreases |cfg.subnets| - i
  {
    hide Suits;
    if i < |cfg.subnets| {
      var s := cfg.subnets[i];
      assert cfg.subnets[i..][0] == s && cfg.subnets[i..][1..] == cfg.subnets[i + 1..];
      SuitsIff(cfg, s.name);
      if Suits(cfg, s.name) {
        assert PickedAt(cfg, Some(SubnetKey(cfg, s)), i);
      } else {
        SearchPicks(cfg, GetCall(w, SubnetKey(cfg, s)).w, i + 1);
      }
    }
  }

  lemma SearchAdds(cfg: Config, w: World)
    ensures var r := GetSubnet(cfg, w, cfg.subnets);
      r.w.cloud == w.cloud && (r.Done? ==> Picked(cfg, Some(r.value)))
  {
    assert cfg.subnets[0..] == cfg.subnets;
    SearchPicks(cfg, w, 0);
  }

  // ----- whole rounds -----

  lemma GroupIsMade(cfg: Config, z: string)
    ensures Made(cfg, GroupKey(cfg, z), GroupSpec(cfg))
  {
  }

  lemma {:induction false} GroupsAdd(cfg: Config, w: World, zones: seq<string>, m: map<string, Link>, shared: bool)
    ensures Adds(cfg, w.cloud, CreateGroupsFrom(cfg, w, zones, m, shared).w.cloud)
    decreases |zones|
  {
    hide CreateOrGet, Adds, Made;
    SameAdds(cfg, w.cloud);
    if zones != [] {
      GroupIsMade(cfg, zones[0]);
      CreateAdds(cfg, w, GroupKey(cfg, zones[0]), GroupSpec(cfg));
      var r := CreateOrGet(w, GroupKey(cfg, zones[0]), GroupSpec(cfg));
      if r.Done? {
        var m1 := m[zones[0] := r.value.link];
        var w1 := if shared then r.w.(net := r.w.net.(groups := Some(m1))) else r.w;
        GroupsAdd(cfg, w1, zones[1..], m1, shared);
        AddsTwice(cfg, w.cloud, w1.cloud, CreateGroupsFrom(cfg, w, zones, m, shared).w.cloud);
      }
    }
  }

  lemma ExternalSpecs(cfg: Config, groups: seq<Link>, a: Link, b: Link)
    ensures Made(cfg, ExternalKey(cfg, HealthChecks), HealthCheck(""))
    ensures Made(cfg, ExternalKey(cfg, BackendServices), ExternalBackendSpec(cfg, groups, a))
    ensures Made(cfg, ExternalKey(cfg, TargetTcpProxies), TargetTcpProxy(a))
    ensures Made(cfg, ExternalKey(cfg, Addresses), Address(ExternalScheme, "", "", None, ""))
    ensures Made(cfg, ExternalKey(cfg, ForwardingRules), ExternalRuleSpec(cfg, a, b))
  {
  }

  lemma InternalSpecs(cfg: Config, groups: seq<Link>, a: Link, b: Link, subnet: Link)
    ensures Made(cfg, InternalKey(cfg, HealthChecks), HealthCheck(cfg.region))
    ensures Made(cfg, InternalKey(cfg, BackendServices), InternalBackendSpec(cfg, groups, a))
    ensures Picked(cfg, Some(subnet)) ==>
              && Made(cfg, InternalKey(cfg, Addresses), InternalAddressSpec(cfg, subnet))
              && Made(cfg, InternalKey(cfg, ForwardingRules), InternalRuleSpec(cfg, a, b, subnet))
  {
    hide Picked;
  }

  lemma ExternalServiceAdds(cfg: Config, w: World, groups: seq<Link>)
    ensures Adds(cfg, w.cloud, CreateExternalService(cfg, w, groups).w.cloud)
  {
    hide CreateOrGet, CreateBackendService, Made, Adds, ExternalBackendSpec;
    var check, service := ExternalKey(cfg, HealthChecks), ExternalKey(cfg, BackendServices);
    ExternalSpecs(cfg, groups, check, check);
    CreateAdds(cfg, w, check, HealthCheck(""));
    var r := CreateOrGet(w, check, HealthCheck(""));
    if r.Failed? { return; }
    var w1 := SetExternal(r.w, r.w.net.external.(healthCheck := Some(r.value.link)));
    var spec := ExternalBackendSpec(cfg, groups, r.value.link);
    ExternalSpecs(cfg, groups, r.value.link, check);
    ServiceAdds(cfg, w1, service, spec);
    AddsTwice(cfg, w.cloud, w1.cloud, CreateBackendService(w1, service, spec).w.cloud);
  }

  lemma ExternalFrontendAdds(cfg: Config, w: World, proxy: Link)
    ensures Adds(cfg, w.cloud, CreateExternalFrontend(cfg, w, proxy).w.cloud)
  {
    hide CreateOrGet, CreateForwardingRule, Made, Adds, ExternalRuleSpec;
    var address, rule := ExternalKey(cfg, Addresses), ExternalKey(cfg, ForwardingRules);
    var spec := Address(ExternalScheme, "", "", None, "");
    ExternalSpecs(cfg, [], proxy, proxy);
    CreateAdds(cfg, w, address, spec);
    var r := CreateOrGet(w, address, spec);
    if r.Failed? { return; }
    var w1 := SetExternal(r.w, r.w.net.external.(address := Some(r.value.link))).(host := IpOf(r.value.resource));
    ExternalSpecs(cfg, [], proxy, r.value.link);
    RuleAdds(cfg, w1, rule, ExternalRuleSpec(cfg, proxy, r.value.link));
    AddsTwice(cfg, w.cloud, w1.cloud,
              CreateForwardingRule(cfg, w1, rule, ExternalRuleSpec(cfg, proxy, r.value.link)).w.cloud);
  }

  lemma ExternalAdds(cfg: Config, w: World, groups: seq<Link>)
    ensures Adds(cfg, w.cloud, CreateExternal(cfg, w, groups).w.cloud)
  {
    hide CreateOrGet, CreateExternalService, CreateExternalFrontend, Made, Adds;
    ExternalServiceAdds(cfg, w, groups);
    var r1 := CreateExternalService(cfg, w, groups);
    if r1.Failed? { return; }
    ExternalSpecs(cfg, groups, r1.value, r1.value);
    CreateAdds(cfg, r1.w, ExternalKey(cfg, TargetTcpProxies), TargetTcpProxy(r1.value));
    var r2 := CreateProxy(cfg, r1.w, r1.value);
    AddsTwice(cfg, w.cloud, r1.w.cloud, r2.w.cloud);
    if r2.Failed? { return; }
    ExternalFrontendAdds(cfg, r2.w, r2.value);
    AddsTwice(cfg, w.cloud, r2.w.cloud, CreateExternalFrontend(cfg, r2.w, r2.value).w.cloud);
  }

  lemma InternalServiceAdds(cfg: Config, w: World, groups: seq<Link>)
    ensures Adds(cfg, w.cloud, CreateInternalService(cfg, w, groups).w.cloud)
  {
    hide CreateOrGet, CreateBackendService, Made, Adds, InternalBackendSpec;
    var check, service := InternalKey(cfg, HealthChecks), InternalKey(cfg, BackendServices);
    InternalSpecs(cfg, groups, check, check, check);
    CreateAdds(cfg, w, check, HealthCheck(cfg.region));
    var r := CreateOrGet(w, check, HealthCheck(cfg.region));
    if r.Failed? { return; }
    var w1 := SetInternal(r.w, r.w.net.internal.(healthCheck := Some(r.value.link)));
    var spec := InternalBackendSpec(cfg, groups, r.value.link);
    InternalSpecs(cfg, groups, r.value.link, check, check);
    ServiceAdds(cfg, w1, service, spec);
    AddsTwice(cfg, w.cloud, w1.cloud, CreateBackendService(w1, service, spec).w.cloud);
  }

  lemma InternalFrontendAdds(cfg: Config, w: World, service: Link, address: Link)
    ensures Adds(cfg, w.cloud, CreateInternalAddress(cfg, w).w.cloud)
    ensures Adds(cfg, w.cloud, CreateInternalRule(cfg, w, service, address).w.cloud)
  {
    hide CreateOrGet, CreateForwardingRule, Made, Adds, GetSubnet, Picked, InternalRuleSpec, InternalAddressSpec;
    SearchAdds(cfg, w);
    SameAdds(cfg, w.cloud);
    var r := GetSubnet(cfg, w, cfg.subnets);
    if r.Failed? { return; }
    InternalSpecs(cfg, [], service, address, r.value);
    CreateAdds(cfg, r.w, InternalKey(cfg, Addresses), InternalAddressSpec(cfg, r.value));
    RuleAdds(cfg, r.w, InternalKey(cfg, ForwardingRules), InternalRuleSpec(cfg, service, address, r.value));
  }

  lemma InternalAdds(cfg: Config, w: World, groups: seq<Link>)
    ensures Adds(cfg, w.cloud, CreateInternal(cfg, w, groups).w.cloud)
  {
    hide CreateInternalService, CreateInternalAddress, CreateInternalRule, Adds;
    InternalServiceAdds(cfg, w, groups);
    var r1 := CreateInternalService(cfg, w, groups);
    if r1.Failed? { return; }
    InternalFrontendAdds(cfg, r1.w, r1.value, r1.value);
    var r2 := CreateInternalAddress(cfg, r1.w);
    AddsTwice(cfg, w.cloud, r1.w.cloud, r2.w.cloud);
    if r2.Failed? { return; }
    InternalFrontendAdds(cfg, r2.w, r1.value, r2.value);
    AddsTwice(cfg, w.cloud, r2.w.cloud, CreateInternalRule(cfg, r2.w, r1.value, r2.value).w.cloud);
  }

  /** What a Reconcile adds is what its configuration asks for, whatever fails. */
  lemma ReconcileAdds(cfg: Config, w: World, zones: seq<string>)
    ensures Adds(cfg, w.cloud, Reconcile(cfg, w, zones).w.cloud)
  {
    hide CreateExternal, CreateInternal, CreateGroupsFrom, Adds;
    GroupsAdd(cfg, w, zones, w.net.groups.GetOr(map[]), w.net.groups.Some?);
    var r1 := CreateGroups(cfg, w, zones);
    if r1.Failed? { return; }
    ExternalAdds(cfg, r1.w, r1.value);
    SameAdds(cfg, r1.w.cloud);
    var r2: Step<()> := if WantsExternal(cfg) then CreateExternal(cfg, r1.w, r1.value) else Done(r1.w, ());
    AddsTwice(cfg, w.cloud, r1.w.cloud, r2.w.cloud);
    if r2.Failed? { return; }
    InternalAdds(cfg, r2.w, r1.value);
    AddsTwice(cfg, w.cloud, r2.w.cloud, CreateInternal(cfg, r2.w, r1.value).w.cloud);
  }

  // ----- whole runs -----

  /** Some Reconcile of the run asked for exactly this resource. */
  ghost predicate AskedFor(actions: seq<Action>, k: Key, r: Resource) {
    exists a :: a in actions && a.ReconcileRound? && Made(a.cfg, k, r)
  }

  ghost predicate AllAskedFor(cfg: Config, actions: seq<Action>, c: Cloud) {
    forall k :: k in c && Own(cfg, k) ==> AskedFor(actions, k, c[k])
  }

  lemma RoundAdds(base: Cloud, zs: set<string>, w: World, a: Action)
    requires Clean(a.cfg, base) && SoundRun(a.cfg, base, zs, w)
    ensures var c' := Round(w, a).0.cloud;
      if a.ReconcileRound? then Adds(a.cfg, w.cloud, c')
      else forall k :: k in c' ==> k in w.cloud && c'[k] == w.cloud[k]
  {
    hide Reconcile, DeleteAll, Adds, Sound, SoundLog, Clean, Wanted;
    var w0 := w.(net := Reload(w.net));
    match a
    case ReconcileRound(cfg, zones) => ReconcileAdds(cfg, w0, zones);
    case DeleteRound(cfg, order) =>
      assert SoundRun(cfg, base, zs, w0);
      DeleteAllKeeps(cfg, base, zs, w0, order);
  }

  /**
    After every run, whatever failed and whatever was edited in between, each resource of the balancer is what the
    configuration of some round of that run asked for: group name and port, serving ports, network, subnet, limits.
   */
  lemma {:induction false} RunIsAskedFor(cfg: Config, base: Cloud, w: World, actions: seq<Action>)
    requires Start(cfg, base, w) && PossibleRun(cfg, w, actions)
    ensures AllAskedFor(cfg, actions, Run(w, actions).cloud)
    decreases |actions|
  {
    hide Round, Made, Clean, SoundRun, Own, Adds, Kept, Possible;
    if actions == [] {
      StartHoldsNothing(cfg, base, w);
      return;
    }
    var before, last, zs := actions[..|actions| - 1], actions[|actions| - 1], Zones(actions);
    assert Zones(before) <= zs;
    RunIsAskedFor(cfg, base, w, before);
    StartIsSound(cfg, base, zs, w);
    RunKeeps(cfg, base, zs, w, before);
    var w0 := Run(w, before);
    PossibleKin(cfg, w0, last);
    KinClean(cfg, last.cfg, base);
    KinSoundRun(cfg, last.cfg, base, zs, w0);
    RoundAdds(base, zs, w0, last);
    RunIsKin(cfg, w, before, last.cfg);
    var c' := Run(w, actions).cloud;
    forall k | k in c' && Own(cfg, k) ensures AskedFor(actions, k, c'[k]) {
      ResourceAskedFor(cfg, before, last, w0.cloud, c', k);
      assert actions == before + [last];
    }
  }

  lemma StartHoldsNothing(cfg: Config, base: Cloud, w: World)
    requires Start(cfg, base, w)
    ensures AllAskedFor(cfg, [], w.cloud)
  {
    hide Own, Made;
  }

  lemma {:induction false} RunIsKin(cfg: Config, w: World, actions: seq<Action>, cfg': Config)
    requires PossibleRun(cfg, w, actions) && Kin(cfg, cfg')
    ensures forall a :: a in actions ==> Kin(a.cfg, cfg')
    decreases |actions|
  {
    hide Round;
    if actions != [] {
      var before, last := actions[..|actions| - 1], actions[|actions| - 1];
      RunIsKin(cfg, w, before, cfg');
      assert actions == before + [last];
    }
  }

  lemma PossibleKin(cfg: Config, w: World, a: Action)
    requires Possible(cfg, w, a)
    ensures Kin(cfg, a.cfg)
  {
  }

  lemma ResourceAskedFor(cfg: Config, before: seq<Action>, last: Action, c: Cloud, c': Cloud, k: Key)
    requires AllAskedFor(cfg, before, c) && k in c' && Own(cfg, k) && Kin(cfg, last.cfg)
    requires forall a :: a in before && a.ReconcileRound? ==> Kin(a.cfg, last.cfg)
    requires if last.ReconcileRound? then Adds(last.cfg, c, c')
             else forall k :: k in c' ==> k in c && c'[k] == c[k]
    ensures AskedFor(before + [last], k, c'[k])
  {
    hide Made, Kept, Own, Kin;
    assert last in before + [last] && forall a :: a in before ==> a in before + [last];
    if last.ReconcileRound? && Made(last.cfg, k, c'[k]) { return; }
    assert AskedFor(before, k, c[k]);
    var a :| a in before && a.ReconcileRound? && Made(a.cfg, k, c[k]);
    if last.ReconcileRound? { KeptIsMade(a.cfg, last.cfg, k, c[k], c'[k]); }
  }
}
