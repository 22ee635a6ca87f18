/**
  What every single call of the load balancer service keeps, whatever fails: the shape of each
  resource the service owns, referential integrity, and everything it does not own.
 */
module LoadBalancerInvariant {
  import opened CloudApi
  import opened LoadBalancerSpec

  // ----- which balancers a spec asks for -----

  /** A cluster that does not say gets the global balancer. */
  predicate AsksExternal(cfg: Config) {
    cfg.lbType == None || cfg.lbType == Some(External) || cfg.lbType == Some(InternalExternal)
  }

  predicate AsksInternal(cfg: Config) { cfg.lbType == Some(Internal) || cfg.lbType == Some(InternalExternal) }

  /** The chain resources this configuration calls for. */
  function Wanted(cfg: Config): set<Key> {
    (if WantsExternal(cfg) then
       {ExternalKey(cfg, HealthChecks), ExternalKey(cfg, BackendServices), ExternalKey(cfg, TargetTcpProxies),
        ExternalKey(cfg, Addresses), ExternalKey(cfg, ForwardingRules)}
     else {}) +
    (if WantsInternal(cfg) then
       {InternalKey(cfg, HealthChecks), InternalKey(cfg, BackendServices),
        InternalKey(cfg, Addresses), InternalKey(cfg, ForwardingRules)}
     else {})
  }

  predicate IsGroup(cfg: Config, k: Key) {
    k.kind.InstanceGroups? && k.scope.Zonal? && k == GroupKey(cfg, k.scope.zone)
  }

  predicate Own(cfg: Config, k: Key) {
    k in Wanted(cfg) || IsGroup(cfg, k)
  }

  /** The subnet getSubnet settles on if no lookup fails. */
  function ChosenSubnet(cfg: Config, specs: seq<SubnetSpec>): Option<Link> {
    if specs == [] then None
    else if WantedSubnet(cfg) == "" || HasSuffix(specs[0].name, WantedSubnet(cfg)) then
      Some(SubnetKey(cfg, specs[0]))
    else ChosenSubnet(cfg, specs[1..])
  }

  function Mode(cfg: Config, k: Key): BalancingMode {
    if k.scope.Global? && !Type(cfg).InternalExternal? then Utilization else Connection
  }

  /**
    A resource without the parts that the cloud chooses, that vary along a run, or that an edit of the spec may
    change.
   */
  function Outline(r: Resource): Resource {
    match r
    case InstanceGroup(_) => InstanceGroup(0)
    case BackendService(_, _, _, _, _, _) => r.(backends := [], network := None)
    case Address(_, _, _, _, _) => r.(ip := "", subnetwork := None)
    case ForwardingRule(_, _, _, _, _, _, _, _, _) => r.(labels := None, ports := PortList([]), subnetwork := None)
    case _ => r
  }

  /** The outline of the chain resource at `k`; its links are the sibling keys of `k`. */
  function Blueprint(cfg: Config, k: Key): Resource {
    var global := k.scope.Global?;
    match k.kind
    case HealthChecks => HealthCheck(if global then "" else cfg.region)
    case BackendServices =>
      if global then BackendService(ExternalScheme, "apiserver", "", None, [], [k.(kind := HealthChecks)])
      else BackendService(InternalScheme, "", cfg.region, None, [], [k.(kind := HealthChecks)])
    case TargetTcpProxies => TargetTcpProxy(k.(kind := BackendServices))
    case Addresses =>
      if global then Address(ExternalScheme, "", "", None, "")
      else Address(InternalScheme, cfg.region, "GCE_ENDPOINT", None, "")
    case ForwardingRules =>
      if global then
        ForwardingRule(ExternalScheme, "", Some(k.(kind := TargetTcpProxies)), None, k.(kind := Addresses), None,
                       PortList([]), false, None)
      else
        ForwardingRule(InternalScheme, cfg.region, None, Some(k.(kind := BackendServices)), k.(kind := Addresses),
                       None, PortList([]), cfg.internal.Some? && cfg.internal.value.globalAccess, None)
    case InstanceGroups => InstanceGroup(0)
    case Subnetworks => Subnetwork
  }

  /** The subnet a resource links to. */
  function SubnetOf(r: Resource): Option<Link> {
    if r.Address? || r.ForwardingRule? then r.subnetwork else None
  }

  ghost predicate FitBackends(cfg: Config, zs: set<string>, mode: BalancingMode, backends: seq<Backend>) {
    && (forall b :: b in backends ==> b.mode == mode && IsGroup(cfg, b.group) && b.group.scope.zone in zs)
    && (forall i, j :: 0 <= i < j < |backends| ==> backends[i].group != backends[j].group)
  }

  ghost predicate Fits(cfg: Config, zs: set<string>, k: Key, r: Resource) {
    && Outline(r) == Blueprint(cfg, k)
    && (k.kind.InstanceGroups? ==> k.scope.Zonal? && k.scope.zone in zs)
    && (r.BackendService? ==> FitBackends(cfg, zs, Mode(cfg, k), r.backends))
    && (SubnetOf(r).Some? ==> SubnetOf(r).value.kind.Subnetworks?)
    && (r.ForwardingRule? ==> r.labels != Some(map[]))
    && (r.Address? && k.scope.Regional? && StaticAddress(cfg) != "" ==> r.ip == StaticAddress(cfg))
  }

  /** `c` differs from `base` only in resources of this cluster. */
  ghost predicate Framed(cfg: Config, base: Cloud, c: Cloud) {
    forall k :: !Own(cfg, k) ==> (k in c <==> k in base) && (k in c ==> c[k] == base[k])
  }

  /** The invariant: `zs` holds every zone used so far. */
  ghost predicate Sound(cfg: Config, base: Cloud, zs: set<string>, c: Cloud) {
    && Framed(cfg, base, c)
    && Integrity(c)
    && (forall k :: k in c && Own(cfg, k) ==> Fits(cfg, zs, k, c[k]))
  }

  /** A starting cloud: sound links, and none of this cluster's load balancer keys. */
  ghost predicate Clean(cfg: Config, base: Cloud) {
    && Integrity(base)
    && (forall k :: k in base ==> !Own(cfg, k))
  }

  ghost predicate SoundLog(cfg: Config, base: Cloud, zs: set<string>, c: Cloud, log: seq<Event>) {
    && Sound(cfg, base, zs, c)
    && (forall i :: 0 <= i < |log| ==> Sound(cfg, base, zs, log[i].cloud))
  }

  /** Sound now and after every call so far. */
  ghost predicate SoundRun(cfg: Config, base: Cloud, zs: set<string>, w: World) {
    SoundLog(cfg, base, zs, w.cloud, w.log)
  }

  lemma CleanIsSound(cfg: Config, base: Cloud, zs: set<string>)
    requires Clean(cfg, base)
    ensures Sound(cfg, base, zs, base)
  {
  }

  lemma StoreKeeps(cfg: Config, base: Cloud, zs: set<string>, c: Cloud, k: Key, r: Resource)
    requires Sound(cfg, base, zs, c) && Own(cfg, k)
    requires Fits(cfg, zs, k, r) && References(r) <= c.Keys
    ensures Sound(cfg, base, zs, c[k := r])
  {
  }

  /** Which own resources can link to an own resource. */
  predicate MayLink(k: Key, l: Key) {
    match l.kind
    case InstanceGroups => k.kind.BackendServices?
    case HealthChecks => k == l.(kind := BackendServices)
    case BackendServices => k == l.(kind := TargetTcpProxies) || k == l.(kind := ForwardingRules)
    case TargetTcpProxies => k == l.(kind := ForwardingRules)
    case Addresses => k == l.(kind := ForwardingRules)
    case _ => false
  }

  lemma ChosenIsSubnet(cfg: Config, specs: seq<SubnetSpec>)
    ensures ChosenSubnet(cfg, specs).Some? ==> ChosenSubnet(cfg, specs).value.kind.Subnetworks?
  {
  }

  lemma LinksOfFit(cfg: Config, zs: set<string>, k: Key, r: Resource, l: Key)
    requires Fits(cfg, zs, k, r) && l in References(r) && !l.kind.Subnetworks?
    ensures MayLink(k, l)
  {
    if r.BackendService? {
      if b :| b in r.backends && b.group == l {
      } else {
        assert l in r.healthChecks;
      }
    }
  }

  lemma NotInUse(cfg: Config, base: Cloud, zs: set<string>, c: Cloud, k: Key)
    requires Clean(cfg, base) && Sound(cfg, base, zs, c) && Own(cfg, k)
    requires forall k' :: k' in c && MayLink(k', k) ==> k' !in Wanted(cfg)
    ensures !InUse(c, k)
  {
    hide Fits;
    forall k' | k' in c ensures k !in References(c[k']) {
      if k in References(c[k']) {
        if Own(cfg, k') {
          LinksOfFit(cfg, zs, k', c[k'], k);
        }
        assert false;
      }
    }
  }

  lemma DropKeeps(cfg: Config, base: Cloud, zs: set<string>, c: Cloud, k: Key)
    requires Sound(cfg, base, zs, c) && Own(cfg, k) && !InUse(c, k)
    ensures Sound(cfg, base, zs, c - {k})
  {
  }

  // ----- edits of the spec -----

  /** The two configurations have the same cluster, region and load balancer spec; everything else may differ. */
  predicate Kin(cfg: Config, cfg': Config) {
    && cfg'.name == cfg.name && cfg'.region == cfg.region && cfg'.lbType == cfg.lbType
    && cfg'.internal == cfg.internal && cfg'.groupTag == cfg.groupTag
  }

  lemma KinKeys(cfg: Config, cfg': Config)
    requires Kin(cfg, cfg')
    ensures Wanted(cfg') == Wanted(cfg)
    ensures forall k :: IsGroup(cfg', k) == IsGroup(cfg, k)
    ensures forall k :: Own(cfg', k) == Own(cfg, k)
    ensures forall z :: GroupKey(cfg', z) == GroupKey(cfg, z)
  {
  }

  lemma KinFits(cfg: Config, cfg': Config, zs: set<string>, k: Key, r: Resource)
    requires Kin(cfg, cfg') && Fits(cfg, zs, k, r)
    ensures Fits(cfg', zs, k, r)
  {
    KinKeys(cfg, cfg');
  }

  /** The invariant does not see an edit. */
  lemma KinSound(cfg: Config, cfg': Config, base: Cloud, zs: set<string>, c: Cloud)
    requires Kin(cfg, cfg') && Sound(cfg, base, zs, c)
    ensures Sound(cfg', base, zs, c)
  {
    hide Fits, Own;
    KinKeys(cfg, cfg');
    forall k | k in c && Own(cfg', k) ensures Fits(cfg', zs, k, c[k]) {
      KinFits(cfg, cfg', zs, k, c[k]);
    }
  }

  lemma KinSoundRun(cfg: Config, cfg': Config, base: Cloud, zs: set<string>, w: World)
    requires Kin(cfg, cfg') && SoundRun(cfg, base, zs, w)
    ensures SoundRun(cfg', base, zs, w)
  {
    KinSound(cfg, cfg', base, zs, w.cloud);
    forall i | 0 <= i < |w.log| ensures Sound(cfg', base, zs, w.log[i].cloud) {
      KinSound(cfg, cfg', base, zs, w.log[i].cloud);
    }
  }

  lemma KinClean(cfg: Config, cfg': Config, base: Cloud)
    requires Kin(cfg, cfg') && Clean(cfg, base)
    ensures Clean(cfg', base)
  {
    KinKeys(cfg, cfg');
  }
}
