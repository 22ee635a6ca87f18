/**
  The load balancer service (cloud/services/compute/loadbalancers/reconcile.go) as functions
  from world to world.  `:-` is the source's early return on error: a failed step carries the
  world it left behind, with every status field written before the failure.
 */
module LoadBalancerSpec {
  import opened CloudApi

  datatype LoadBalancerType = External | Internal | InternalExternal | OtherType(text: string)

  datatype InternalLoadBalancer = InternalLoadBalancer(
    name: Option<string>, subnet: Option<string>, globalAccess: bool, ipAddress: Option<string>)

  datatype SubnetSpec = SubnetSpec(name: string, region: string)

  /** The part of the cluster the service reads; `network` is the self link the network service recorded. */
  datatype Config = Config(
    name: string, region: string, lbType: Option<LoadBalancerType>, internal: Option<InternalLoadBalancer>,
    groupTag: Option<string>, backendPort: Option<int>, apiServerPort: int, subnets: seq<SubnetSpec>,
    network: Option<string>, labels: Option<Labels>)

  function Type(cfg: Config): LoadBalancerType { cfg.lbType.GetOr(External) }

  predicate WantsExternal(cfg: Config) { Type(cfg).External? || Type(cfg).InternalExternal? }

  predicate WantsInternal(cfg: Config) { Type(cfg).Internal? || Type(cfg).InternalExternal? }

  function InternalName(cfg: Config): string {
    if cfg.internal.Some? then cfg.internal.value.name.GetOr("api-internal") else "api-internal"
  }

  function ExternalKey(cfg: Config, kind: Kind): Key {
    Key(kind, Global, cfg.name + "-" + "apiserver")
  }

  function InternalKey(cfg: Config, kind: Kind): Key {
    Key(kind, Regional(cfg.region), cfg.name + "-" + InternalName(cfg))
  }

  function GroupKey(cfg: Config, zone: string): Key {
    Key(InstanceGroups, Zonal(zone), cfg.name + "-" + cfg.groupTag.GetOr("apiserver") + "-" + zone)
  }

  function GroupLinks(cfg: Config, zones: seq<string>): seq<Link> {
    seq(|zones|, i requires 0 <= i < |zones| => GroupKey(cfg, zones[i]))
  }

  function Port(cfg: Config): int { if cfg.apiServerPort != 0 then cfg.apiServerPort else 443 }

  // ----- desired resources -----

  function GroupSpec(cfg: Config): Resource { InstanceGroup(cfg.backendPort.GetOr(6443)) }

  function BackendsFor(mode: BalancingMode, limit: int, groups: seq<Link>): seq<Backend> {
    seq(|groups|, i requires 0 <= i < |groups| => Backend(mode, groups[i], limit))
  }

  function ExternalMode(cfg: Config): BalancingMode {
    if Type(cfg).InternalExternal? then Connection else Utilization
  }

  function ExternalBackends(cfg: Config, groups: seq<Link>): seq<Backend> {
    BackendsFor(ExternalMode(cfg), if ExternalMode(cfg).Connection? then 1000 else 0, groups)
  }

  function ExternalBackendSpec(cfg: Config, groups: seq<Link>, check: Link): Resource {
    BackendService(ExternalScheme, "apiserver", "", None, ExternalBackends(cfg, groups), [check])
  }

  function InternalBackendSpec(cfg: Config, groups: seq<Link>, check: Link): Resource {
    BackendService(InternalScheme, "", cfg.region, cfg.network, BackendsFor(Connection, 0, groups), [check])
  }

  function InternalAddressSpec(cfg: Config, subnet: Link): Resource {
    Address(InternalScheme, cfg.region, "GCE_ENDPOINT", Some(subnet), StaticAddress(cfg))
  }

  function StaticAddress(cfg: Config): string {
    if cfg.internal.Some? then cfg.internal.value.ipAddress.GetOr("") else ""
  }

  function ExternalRuleSpec(cfg: Config, target: Link, address: Link): Resource {
    ForwardingRule(ExternalScheme, "", Some(target), None, address, None,
                   PortRange(Port(cfg), Port(cfg)), false, cfg.labels)
  }

  function InternalRuleSpec(cfg: Config, service: Link, address: Link, subnet: Link): Resource {
    ForwardingRule(InternalScheme, cfg.region, None, Some(service), address, Some(subnet),
                   PortList([Port(cfg), 22623]), cfg.internal.Some? && cfg.internal.value.globalAccess, cfg.labels)
  }

  // ----- instance groups -----

  /**
    One pass over the zones.  `m` is the source's groupsMap; when the status already holds a map the
    two are the same object, so every write is visible in the status even if a later zone fails.
   */
  function CreateGroupsFrom(cfg: Config, w: World, zones: seq<string>, m: map<string, Link>, shared: bool)
    : Step<map<string, Link>>
    decreases |zones|
  {
    if zones == [] then Done(w, m)
    else
      var (w1, group) :- CreateOrGet(w, GroupKey(cfg, zones[0]), GroupSpec(cfg));
      var m1 := m[zones[0] := group.link];
      var w2 := if shared then w1.(net := w1.net.(groups := Some(m1))) else w1;
      CreateGroupsFrom(cfg, w2, zones[1..], m1, shared)
  }

  function CreateGroups(cfg: Config, w: World, zones: seq<string>): Step<seq<Link>> {
    var (w1, m) :- CreateGroupsFrom(cfg, w, zones, w.net.groups.GetOr(map[]), w.net.groups.Some?);
    Done(w1.(net := w1.net.(groups := Some(m))), GroupLinks(cfg, zones))
  }

  // ----- create chains -----

  function BackendsOf(r: Resource): seq<Backend> { if r.BackendService? then r.backends else [] }

  function LabelsOf(r: Resource): Option<Labels> { if r.ForwardingRule? then r.labels else None }

  function IpOf(r: Resource): string { if r.Address? then r.ip else "" }

  function WithBackends(r: Resource, backends: seq<Backend>): Resource {
    if r.BackendService? then r.(backends := backends) else r
  }

  /** Backends are compared by number only. */
  function CreateBackendService(w: World, k: Key, spec: Resource): Step<Found> {
    var (w1, found) :- CreateOrGet(w, k, spec);
    if |BackendsOf(found.resource)| == |BackendsOf(spec)| then Done(w1, found)
    else
      var updated := WithBackends(found.resource, BackendsOf(spec));
      var (w2, _) :- UpdateCall(w1, k, updated);
      Done(w2, Found(found.link, updated))
  }

  /** Labels are set after creation whenever they differ; an empty map differs from an absent one. */
  function CreateForwardingRule(cfg: Config, w: World, k: Key, spec: Resource): Step<Found> {
    var (w1, found) :- CreateOrGet(w, k, spec);
    if LabelsOf(found.resource) == cfg.labels then Done(w1, found)
    else
      var (w2, _) :- SetLabelsCall(w1, k, cfg.labels);
      Done(w2, found)
  }

  predicate HasSuffix(s: string, suffix: string) {
    |suffix| <= |s| && s[|s| - |suffix|..] == suffix
  }

  function SubnetKey(cfg: Config, s: SubnetSpec): Key {
    Key(Subnetworks, Regional(if s.region == "" then cfg.region else s.region), s.name)
  }

  function WantedSubnet(cfg: Config): string {
    if cfg.internal.Some? then cfg.internal.value.subnet.GetOr("") else ""
  }

  function GetSubnet(cfg: Config, w: World, specs: seq<SubnetSpec>): Step<Link>
    decreases |specs|
  {
    if specs == [] then Failed(w, NoSubnet)
    else
      var (w1, found) :- GetCall(w, SubnetKey(cfg, specs[0]));
      if WantedSubnet(cfg) == "" || HasSuffix(found.link.name, WantedSubnet(cfg)) then Done(w1, found.link)
      else GetSubnet(cfg, w1, specs[1..])
  }

  function SetExternal(w: World, s: ChainStatus): World { w.(net := w.net.(external := s)) }

  function SetInternal(w: World, s: ChainStatus): World { w.(net := w.net.(internal := s)) }

  function CreateExternalService(cfg: Config, w: World, groups: seq<Link>): Step<Link> {
    var (w1, check) :- CreateOrGet(w, ExternalKey(cfg, HealthChecks), HealthCheck(""));
    var w1 := SetExternal(w1, w1.net.external.(healthCheck := Some(check.link)));
    var (w2, service) :- CreateBackendService(w1, ExternalKey(cfg, BackendServices),
                                              ExternalBackendSpec(cfg, groups, check.link));
    Done(SetExternal(w2, w2.net.external.(backendService := Some(service.link))), service.link)
  }

  function CreateProxy(cfg: Config, w: World, service: Link): Step<Link> {
    var (w1, proxy) :- CreateOrGet(w, ExternalKey(cfg, TargetTcpProxies), TargetTcpProxy(service));
    Done(SetExternal(w1, w1.net.external.(targetProxy := Some(proxy.link))), proxy.link)
  }

  function CreateExternalFrontend(cfg: Config, w: World, proxy: Link): Step<()> {
    var (w1, address) :- CreateOrGet(w, ExternalKey(cfg, Addresses), Address(ExternalScheme, "", "", None, ""));
    var w1 := SetExternal(w1, w1.net.external.(address := Some(address.link))).(host := IpOf(address.resource));
    var (w2, rule) :- CreateForwardingRule(cfg, w1, ExternalKey(cfg, ForwardingRules),
                                           ExternalRuleSpec(cfg, proxy, address.link));
    Done(SetExternal(w2, w2.net.external.(forwardingRule := Some(rule.link))), ())
  }

  function CreateExternal(cfg: Config, w: World, groups: seq<Link>): Step<()> {
    var (w1, service) :- CreateExternalService(cfg, w, groups);
    var (w2, proxy) :- CreateProxy(cfg, w1, service);
    CreateExternalFrontend(cfg, w2, proxy)
  }

  function CreateInternalService(cfg: Config, w: World, groups: seq<Link>): Step<Link> {
    var (w1, check) :- CreateOrGet(w, InternalKey(cfg, HealthChecks), HealthCheck(cfg.region));
    var w1 := SetInternal(w1, w1.net.internal.(healthCheck := Some(check.link)));
    var (w2, service) :- CreateBackendService(w1, InternalKey(cfg, BackendServices),
                                              InternalBackendSpec(cfg, groups, check.link));
    Done(SetInternal(w2, w2.net.internal.(backendService := Some(service.link))), service.link)
  }

  function CreateInternalAddress(cfg: Config, w: World): Step<Link> {
    var (w1, subnet) :- GetSubnet(cfg, w, cfg.subnets);
    var (w2, address) :- CreateOrGet(w1, InternalKey(cfg, Addresses), InternalAddressSpec(cfg, subnet));
    var w3 := SetInternal(w2, w2.net.internal.(address := Some(address.link)));
    Done(w3.(host := if Type(cfg).Internal? then IpOf(address.resource) else w3.host), address.link)
  }

  function CreateInternalRule(cfg: Config, w: World, service: Link, address: Link): Step<()> {
    var (w1, subnet) :- GetSubnet(cfg, w, cfg.subnets);
    var (w2, rule) :- CreateForwardingRule(cfg, w1, InternalKey(cfg, ForwardingRules),
                                           InternalRuleSpec(cfg, service, address, subnet));
    Done(SetInternal(w2, w2.net.internal.(forwardingRule := Some(rule.link))), ())
  }

  function CreateInternal(cfg: Config, w: World, groups: seq<Link>): Step<()> {
    var (w1, service) :- CreateInternalService(cfg, w, groups);
    var (w2, address) :- CreateInternalAddress(cfg, w1);
    CreateInternalRule(cfg, w2, service, address)
  }

  function Reconcile(cfg: Config, w: World, zones: seq<string>): Step<()> {
    var (w1, groups) :- CreateGroups(cfg, w, zones);
    var (w2, _) :- if WantsExternal(cfg) then CreateExternal(cfg, w1, groups) else Done(w1, ());
    if WantsInternal(cfg) then CreateInternal(cfg, w2, groups) else Done(w2, ())
  }

  // ----- delete chains -----

  function DeleteExternal(cfg: Config, w: World): Step<()> {
    var (w1, _) :- DeleteIfPresent(w, ExternalKey(cfg, ForwardingRules));
    var w1 := SetExternal(w1, w1.net.external.(forwardingRule := None));
    var (w2, _) :- DeleteIfPresent(w1, ExternalKey(cfg, Addresses));
    var w2 := SetExternal(w2, w2.net.external.(address := None));
    var (w3, _) :- DeleteIfPresent(w2, ExternalKey(cfg, TargetTcpProxies));
    var w3 := SetExternal(w3, w3.net.external.(targetProxy := None));
    var (w4, _) :- DeleteIfPresent(w3, ExternalKey(cfg, BackendServices));
    var w4 := SetExternal(w4, w4.net.external.(backendService := None));
    var (w5, _) :- DeleteIfPresent(w4, ExternalKey(cfg, HealthChecks));
    Done(SetExternal(w5, w5.net.external.(healthCheck := None)), ())
  }

  function DeleteInternal(cfg: Config, w: World): Step<()> {
    var (w1, _) :- DeleteIfPresent(w, InternalKey(cfg, ForwardingRules));
    var w1 := SetInternal(w1, w1.net.internal.(forwardingRule := None));
    var (w2, _) :- DeleteIfPresent(w1, InternalKey(cfg, Addresses));
    var w2 := SetInternal(w2, w2.net.internal.(address := None));
    var (w3, _) :- DeleteIfPresent(w2, InternalKey(cfg, BackendServices));
    var w3 := SetInternal(w3, w3.net.internal.(backendService := None));
    var (w4, _) :- DeleteIfPresent(w3, InternalKey(cfg, HealthChecks));
    Done(SetInternal(w4, w4.net.internal.(healthCheck := None)), ())
  }

  function DropGroup(net: NetworkStatus, zone: string): NetworkStatus {
    if net.groups.Some? then net.(groups := Some(net.groups.value - {zone})) else net
  }

  /** An entry leaves the map only when its group turned out to be gone already. */
  function DeleteGroups(cfg: Config, w: World, order: seq<string>): Step<()>
    decreases |order|
  {
    if order == [] then Done(w, ())
    else
      match DeleteCall(w, GroupKey(cfg, order[0]))
      case Done(w1, _) => DeleteGroups(cfg, w1, order[1..])
      case Failed(w1, error) =>
        if error == NotFound then DeleteGroups(cfg, w1.(net := DropGroup(w1.net, order[0])), order[1..])
        else Failed(w1, error)
  }

  /** `order` is the order in which the source's range over the instance group map visits its keys. */
  ghost predicate RangeOrder(net: NetworkStatus, order: seq<string>) {
    && (forall z :: z in order <==> z in net.groups.GetOr(map[]))
    && (forall i, j :: 0 <= i < j < |order| ==> order[i] != order[j])
  }

  /** Every stage runs even if an earlier one failed; the errors are joined. */
  function DeleteAll(cfg: Config, w: World, order: seq<string>): (World, bool) {
    var r1 := if WantsExternal(cfg) then DeleteExternal(cfg, w) else Done(w, ());
    var r2 := if WantsInternal(cfg) then DeleteInternal(cfg, r1.w) else Done(r1.w, ());
    var r3 := DeleteGroups(cfg, r2.w, order);
    (r3.w, r1.Done? && r2.Done? && r3.Done?)
  }
}
