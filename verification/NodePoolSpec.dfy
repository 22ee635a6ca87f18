/**
  GKE node pools (cloud/services/container/nodepools/reconcile.go): the wanted pool, the three
  comparisons that prepare update requests, and what the cloud makes of a request.
  `None` is Go's nil: an absent collection and an empty one are different values.
 */
module NodePoolSpec {
  import opened CloudApi
  import opened Text
  import opened Locations

  // ----- exp/api/v1beta1/types.go -----

  datatype TaintEffect = NoSchedule | NoExecute | PreferNoSchedule | EffectUnspecified

  datatype Taint = Taint(effect: string, key: string, value: string)

  datatype SdkTaint = SdkTaint(key: string, value: string, effect: TaintEffect)

  function ConvertEffect(effect: string): TaintEffect {
    if effect == "NoSchedule" then NoSchedule
    else if effect == "NoExecute" then NoExecute
    else if effect == "PreferNoSchedule" then PreferNoSchedule
    else EffectUnspecified
  }

  function ConvertTaint(t: Taint): SdkTaint { SdkTaint(t.key, t.value, ConvertEffect(t.effect)) }

  function ConvertTaints(taints: Option<seq<Taint>>): Option<seq<SdkTaint>> {
    if taints.None? then None
    else Some(seq(|taints.value|, i requires 0 <= i < |taints.value| => ConvertTaint(taints.value[i])))
  }

  datatype LocationPolicy = Balanced | Any | PolicyUnspecified

  datatype Scaling = Scaling(min: Option<int>, max: Option<int>, enable: Option<bool>, policy: Option<string>)

  datatype Autoscaling = Autoscaling(enabled: bool, totalMin: int, totalMax: int, policy: LocationPolicy)

  function ConvertPolicy(policy: string): LocationPolicy {
    if policy == "balanced" then Balanced else if policy == "any" then Any else PolicyUnspecified
  }

  function ConvertAutoscaling(scaling: Option<Scaling>): Autoscaling {
    if scaling.None? then Autoscaling(true, 0, 1, Balanced)
    else if scaling.value.enable == Some(false) then Autoscaling(false, 0, 0, PolicyUnspecified)
    else
      var s := scaling.value;
      Autoscaling(true, s.min.GetOr(0), s.max.GetOr(1),
                  if s.policy.Some? then ConvertPolicy(s.policy.value) else Balanced)
  }

  /** The part before the first dash, without its first 'v'. */
  function ConvertVersion(version: string): string { RemoveFirst(Split(version, '-')[0], 'v') }

  datatype Sysctl = Sysctl(parameter: string, value: string)

  datatype LinuxNodeConfig = LinuxNodeConfig(sysctls: Option<seq<Sysctl>>, cgroupMode: Option<int>)

  datatype CgroupMode = CgroupUnspecified | CgroupV1 | CgroupV2

  datatype SdkLinuxConfig = SdkLinuxConfig(sysctls: Option<map<string, string>>, cgroupMode: CgroupMode)

  /** A later entry for the same parameter wins. */
  function SysctlMap(sysctls: seq<Sysctl>): map<string, string> {
    if sysctls == [] then map[]
    else SysctlMap(sysctls[..|sysctls| - 1])[sysctls[|sysctls| - 1].parameter := sysctls[|sysctls| - 1].value]
  }

  function ConvertCgroup(mode: int): CgroupMode {
    if mode == 1 then CgroupV1 else if mode == 2 then CgroupV2 else CgroupUnspecified
  }

  /** Never nil, even for an absent configuration. */
  function ConvertLinux(linux: Option<LinuxNodeConfig>): SdkLinuxConfig {
    if linux.None? then SdkLinuxConfig(None, CgroupUnspecified)
    else SdkLinuxConfig(
        if linux.value.sysctls.Some? then Some(SysctlMap(linux.value.sysctls.value)) else None,
        if linux.value.cgroupMode.Some? then ConvertCgroup(linux.value.cgroupMode.value) else CgroupUnspecified)
  }

  // ----- the pool -----

  datatype PoolStatus = Provisioning | Reconciling | Stopping | InError | RunningWithError | Running | OtherStatus

  datatype NodeConfig = NodeConfig(
    labels: Option<Labels>, taints: Option<seq<SdkTaint>>, imageType: string, resourceLabels: Option<Labels>,
    tags: Option<seq<string>>, linux: Option<SdkLinuxConfig>)

  datatype NodePool = NodePool(
    status: PoolStatus, version: string, config: Option<NodeConfig>, locations: Option<seq<string>>,
    autoscaling: Option<Autoscaling>, initialNodeCount: int)

  datatype PoolSpec = PoolSpec(
    name: string, owner: MachinePool, version: string, clusterName: string, clusterLocation: string,
    labels: Option<Labels>, taints: Option<seq<Taint>>, imageType: Option<string>, additionalLabels: Option<Labels>,
    locations: Option<seq<string>>, tags: Option<seq<string>>, linux: Option<LinuxNodeConfig>, scaling: Option<Scaling>)

  const NoConfig := NodeConfig(None, None, "", None, None, None)

  /** The getters of a nil configuration give the zero values. */
  function ConfigOf(pool: NodePool): NodeConfig { pool.config.GetOr(NoConfig) }

  predicate InRegion(spec: PoolSpec) { IsRegional(RegionName(spec.clusterLocation)) }

  function Managed(spec: PoolSpec): ManagedPool { ManagedPool(spec.name, spec.locations.GetOr([])) }

  function ResourceLabels(spec: PoolSpec): Labels {
    spec.additionalLabels.GetOr(map[])[ClusterTagKey(spec.clusterName) := "owned"]
  }

  /** The pool that creation asks for. */
  function Desired(spec: PoolSpec): NodePool {
    var config := NodeConfig(
      spec.labels, ConvertTaints(spec.taints), spec.imageType.GetOr(""), Some(ResourceLabels(spec)),
      if spec.tags.GetOr([]) != [] then spec.tags else None,
      if spec.linux.Some? then Some(ConvertLinux(spec.linux)) else None);
    NodePool(Provisioning, if spec.version == "" then "" else RemoveFirst(spec.version, 'v'), Some(config),
             if spec.locations.GetOr([]) != [] then spec.locations else None,
             if spec.scaling.Some? then Some(ConvertAutoscaling(spec.scaling)) else None,
             InitialNodeCount(Managed(spec), spec.owner, InRegion(spec)))
  }

  // ----- comparisons -----

  /** A field of message type is either left out or sent with its value. */
  datatype UpdateRequest = UpdateRequest(
    version: string, labels: Option<Option<Labels>>, taints: Option<Option<seq<SdkTaint>>>, imageType: string,
    resourceLabels: Option<Option<Labels>>, locations: Option<seq<string>>, tags: Option<Option<seq<string>>>,
    linux: Option<SdkLinuxConfig>)

  const EmptyRequest := UpdateRequest("", None, None, "", None, None, None, None)

  predicate VersionDiffers(spec: PoolSpec, pool: NodePool) {
    spec.version != "" && ConvertVersion(spec.version) != ConvertVersion(pool.version)
  }

  predicate LabelsDiffer(spec: PoolSpec, pool: NodePool) { spec.labels != ConfigOf(pool).labels }

  predicate TaintsDiffer(spec: PoolSpec, pool: NodePool) { ConvertTaints(spec.taints) != ConfigOf(pool).taints }

  predicate ImageDiffers(spec: PoolSpec, pool: NodePool) {
    spec.imageType.GetOr("") != "" && !EqualFold(spec.imageType.GetOr(""), ConfigOf(pool).imageType)
  }

  predicate ResourceLabelsDiffer(spec: PoolSpec, pool: NodePool) {
    Some(ResourceLabels(spec)) != ConfigOf(pool).resourceLabels
  }

  predicate LocationsDiffer(spec: PoolSpec, pool: NodePool) { spec.locations.Some? && spec.locations != pool.locations }

  /** Tags are compared only if the pool has a configuration. */
  predicate TagsDiffer(spec: PoolSpec, pool: NodePool) { pool.config.Some? && spec.tags != ConfigOf(pool).tags }

  predicate LinuxDiffers(spec: PoolSpec, pool: NodePool) { Some(ConvertLinux(spec.linux)) != ConfigOf(pool).linux }

  predicate NeedsConfig(spec: PoolSpec, pool: NodePool) {
    || VersionDiffers(spec, pool) || LabelsDiffer(spec, pool) || TaintsDiffer(spec, pool) || ImageDiffers(spec, pool)
    || ResourceLabelsDiffer(spec, pool) || LocationsDiffer(spec, pool) || TagsDiffer(spec, pool)
    || LinuxDiffers(spec, pool)
  }

  /** Only the fields that differ are filled in. */
  function ConfigRequest(spec: PoolSpec, pool: NodePool): UpdateRequest {
    UpdateRequest(
      if VersionDiffers(spec, pool) then ConvertVersion(spec.version) else "",
      if LabelsDiffer(spec, pool) then Some(spec.labels) else None,
      if TaintsDiffer(spec, pool) then Some(ConvertTaints(spec.taints)) else None,
      if ImageDiffers(spec, pool) then spec.imageType.GetOr("") else "",
      if ResourceLabelsDiffer(spec, pool) then Some(Some(ResourceLabels(spec))) else None,
      if LocationsDiffer(spec, pool) then spec.locations else None,
      if TagsDiffer(spec, pool) then Some(spec.tags) else None,
      if LinuxDiffers(spec, pool) then Some(ConvertLinux(spec.linux)) else None)
  }

  predicate NeedsAutoscaling(spec: PoolSpec, pool: NodePool) {
    Some(ConvertAutoscaling(spec.scaling)) != pool.autoscaling
  }

  datatype SizeCheck = SizeFits | Resize(count: int) | DividesByZero

  function CheckSize(spec: PoolSpec, pool: NodePool): SizeCheck {
    var zones := |pool.locations.GetOr([])|;
    if ConvertAutoscaling(spec.scaling).enabled then SizeFits
    else if InRegion(spec) && zones == 0 then DividesByZero
    else
      var count := if InRegion(spec) then Quotient(spec.owner.replicas, zones) else spec.owner.replicas;
      if count != pool.initialNodeCount then Resize(count) else SizeFits
  }

  // ----- what the cloud stores -----

  /** An empty repeated or map field does not survive the wire. */
  function WireMap(m: Option<Labels>): Option<Labels> { if m == Some(map[]) then None else m }

  function WireSeq<T(==)>(s: Option<seq<T>>): Option<seq<T>> { if s.Some? && |s.value| == 0 then None else s }

  function WireLinux(l: SdkLinuxConfig): SdkLinuxConfig { l.(sysctls := WireMap(l.sysctls)) }

  /**
    A cloud that stores each field it is sent, an empty string or list meaning "unchanged"; image types come back in
    upper case.
   */
  function Apply(r: UpdateRequest, pool: NodePool): NodePool {
    var c := ConfigOf(pool);
    pool.(
      version := if r.version != "" then r.version else pool.version,
      locations := if WireSeq(r.locations).Some? then r.locations else pool.locations,
      config := Some(NodeConfig(
        if r.labels.Some? then WireMap(r.labels.value) else c.labels,
        if r.taints.Some? then WireSeq(r.taints.value) else c.taints,
        if r.imageType != "" then Upper(r.imageType) else c.imageType,
        if r.resourceLabels.Some? then WireMap(r.resourceLabels.value) else c.resourceLabels,
        if r.tags.Some? then WireSeq(r.tags.value) else c.tags,
        if r.linux.Some? then Some(WireLinux(r.linux.value)) else c.linux)))
  }

  /** What creation stores; `zones` is the cloud's own choice where the request names none. */
  function Created(spec: PoolSpec, zones: seq<string>): NodePool {
    var d := Desired(spec);
    var c := ConfigOf(d);
    d.(locations := if d.locations.Some? then d.locations else WireSeq(Some(zones)),
       config := Some(c.(labels := WireMap(c.labels), taints := WireSeq(c.taints), imageType := Upper(c.imageType),
                         linux := if c.linux.Some? then Some(WireLinux(c.linux.value)) else None)))
  }
}
