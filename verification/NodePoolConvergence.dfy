/** When the compare-and-update loop of a node pool comes to rest. */
module NodePoolConvergence {
  import opened CloudApi
  import opened Text
  import opened Locations
  import opened NodePoolSpec

  /** Values as they come off the wire: a collection is absent or has members. */
  ghost predicate OffTheWire(pool: NodePool) {
    var c := ConfigOf(pool);
    && c.labels != Some(map[]) && c.taints != Some([]) && c.resourceLabels != Some(map[]) && c.tags != Some([])
    && pool.locations != Some([]) && (c.linux.Some? ==> c.linux.value.sysctls != Some(map[]))
  }

  /** The wanted version can be stored so that it compares equal, or does so already. */
  ghost predicate VersionSettles(spec: PoolSpec, pool: NodePool) {
    var v := ConvertVersion(spec.version);
    !VersionDiffers(spec, pool) || (v != "" && ConvertVersion(v) == v)
  }

  ghost predicate SpecSettles(spec: PoolSpec) {
    && spec.labels != Some(map[]) && spec.taints != Some([]) && spec.tags != Some([]) && spec.locations != Some([])
    && (spec.linux.Some? ==> spec.linux.value.sysctls != Some([]))
  }

  /** No collection is present but empty, and the version can be stored. */
  ghost predicate Settles(spec: PoolSpec, pool: NodePool) { SpecSettles(spec) && VersionSettles(spec, pool) }

  // ----- versions -----

  lemma {:induction false} CountCut(s: string, c: char, i: nat)
    requires i < |s| && s[i] == c
    ensures Count(s[..i] + s[i + 1..], c) == Count(s, c) - 1
  {
    var cut := s[..i] + s[i + 1..];
    if i == 0 {
      assert cut == s[1..];
    } else {
      assert cut[0] == s[0] && cut[1..] == s[1..][..i - 1] + s[1..][i..];
      CountCut(s[1..], c, i - 1);
    }
  }

  lemma {:induction false} CountZero(s: string, c: char)
    ensures Count(s, c) == 0 <==> c !in s
  {
    if s != "" { CountZero(s[1..], c); }
  }

  lemma RemoveFirstCounts(s: string, c: char)
    ensures Count(RemoveFirst(s, c), c) == if c in s then Count(s, c) - 1 else 0
    ensures RemoveFirst(s, c) == s <==> c !in s
    ensures forall x :: x in RemoveFirst(s, c) ==> x in s
  {
    CountZero(s, c);
    var i := Index(s, c);
    if i < |s| { CountCut(s, c, i); }
  }

  /** Converting a version twice changes nothing exactly when its first part holds at most one 'v'. */
  lemma ConversionIdempotentIff(version: string)
    ensures var v := ConvertVersion(version);
      ConvertVersion(v) == v <==> Count(Split(version, '-')[0], 'v') <= 1
  {
    var first := Split(version, '-')[0];
    var v := ConvertVersion(version);
    SplitParts(version, '-');
    assert first in Split(version, '-');
    RemoveFirstCounts(first, 'v');
    SplitFree(v, '-');
    RemoveFirstCounts(v, 'v');
    CountZero(v, 'v');
    CountZero(first, 'v');
  }

  // ----- one update -----

  lemma SysctlsEmptyIff(sysctls: seq<Sysctl>)
    ensures SysctlMap(sysctls) == map[] <==> sysctls == []
  {
    if sysctls != [] {
      assert sysctls[|sysctls| - 1].parameter in SysctlMap(sysctls);
    }
  }

  /** What each field compares like once the request is stored. */
  lemma AfterUpdate(spec: PoolSpec, pool: NodePool)
    requires OffTheWire(pool)
    ensures var pool' := Apply(ConfigRequest(spec, pool), pool);
      && OffTheWire(pool') && pool'.config.Some?
      && pool'.autoscaling == pool.autoscaling && pool'.initialNodeCount == pool.initialNodeCount
      && (pool.locations.Some? ==> pool'.locations.Some?)
      && !ResourceLabelsDiffer(spec, pool') && !ImageDiffers(spec, pool')
      && (LabelsDiffer(spec, pool') <==> spec.labels == Some(map[]))
      && (TaintsDiffer(spec, pool') <==> spec.taints == Some([]))
      && (LocationsDiffer(spec, pool') <==> spec.locations == Some([]))
      && (pool.config.Some? ==> (TagsDiffer(spec, pool') <==> spec.tags == Some([])))
      && (spec.tags == None ==> !TagsDiffer(spec, pool'))
      && (spec.tags == Some([]) ==> TagsDiffer(spec, pool'))
      && (LinuxDiffers(spec, pool') <==> spec.linux.Some? && spec.linux.value.sysctls == Some([]))
  {
    assert ClusterTagKey(spec.clusterName) in ResourceLabels(spec);
    UpperFolds(spec.imageType.GetOr(""));
    if spec.linux.Some? && spec.linux.value.sysctls.Some? { SysctlsEmptyIff(spec.linux.value.sysctls.value); }
  }

  lemma AfterUpdateVersion(spec: PoolSpec, pool: NodePool)
    ensures var pool' := Apply(ConfigRequest(spec, pool), pool);
      VersionDiffers(spec, pool') <==> !VersionSettles(spec, pool)
    ensures VersionSettles(spec, Apply(ConfigRequest(spec, pool), pool)) <==> VersionSettles(spec, pool)
  {
  }

  /**
    A stored update leaves no difference exactly when the spec settles; a pool without configuration first gets one.
   */
  lemma UpdateSettlesIff(spec: PoolSpec, pool: NodePool)
    requires OffTheWire(pool)
    ensures var pool' := Apply(ConfigRequest(spec, pool), pool);
      && (pool.config.Some? || spec.tags == None ==> (NeedsConfig(spec, pool') <==> !Settles(spec, pool)))
      && (Settles(spec, pool') <==> Settles(spec, pool))
      && (!Settles(spec, pool) ==> NeedsConfig(spec, pool'))
  {
    AfterUpdate(spec, pool);
    AfterUpdateVersion(spec, pool);
    hide Apply, ConfigRequest, ConvertVersion, ConvertTaints, ConvertLinux, ResourceLabels;
  }

  lemma UnsettledNeeds(spec: PoolSpec, pool: NodePool)
    requires OffTheWire(pool) && !Settles(spec, pool)
    ensures NeedsConfig(spec, pool)
  {
    if spec.linux.Some? && spec.linux.value.sysctls == Some([]) {
      assert ConvertLinux(spec.linux).sysctls == Some(map[]);
    }
    if spec.taints == Some([]) {
      assert ConvertTaints(spec.taints).value == [];
    }
  }

  // ----- the measure -----

  /** The size comparison will find locations to divide by, or need none. */
  ghost predicate Placeable(spec: PoolSpec, pool: NodePool) {
    || !InRegion(spec) || ConvertAutoscaling(spec.scaling).enabled
    || pool.locations.GetOr([]) != [] || spec.locations.GetOr([]) != []
  }

  /** How many more requests a pool can take: config, then autoscaling, then size. */
  ghost function Rank(spec: PoolSpec, pool: NodePool): nat {
    if NeedsConfig(spec, pool) then (if pool.config.None? && spec.tags.Some? then 4 else 3)
    else if NeedsAutoscaling(spec, pool) then 2
    else if CheckSize(spec, pool).Resize? then 1
    else 0
  }

  datatype Mutation =
    | UpdatePool(request: UpdateRequest) | SetAutoscaling(autoscaling: Autoscaling) | SetSize(count: int)

  function ApplyMutation(m: Mutation, pool: NodePool): NodePool {
    match m
    case UpdatePool(r) => Apply(r, pool)
    case SetAutoscaling(a) => pool.(autoscaling := Some(a))
    case SetSize(n) => pool.(initialNodeCount := n)
  }

  datatype Choice = Send(mutation: Mutation) | Nothing | Panic

  /** The first comparison that finds a difference decides. */
  function NextMutation(spec: PoolSpec, pool: NodePool): Choice {
    if NeedsConfig(spec, pool) then Send(UpdatePool(ConfigRequest(spec, pool)))
    else if NeedsAutoscaling(spec, pool) then Send(SetAutoscaling(ConvertAutoscaling(spec.scaling)))
    else
      match CheckSize(spec, pool)
      case Resize(n) => Send(SetSize(n))
      case SizeFits => Nothing
      case DividesByZero => Panic
  }

  /** The pools that come to rest. */
  ghost predicate Steady(spec: PoolSpec, pool: NodePool) {
    OffTheWire(pool) && Settles(spec, pool) && Placeable(spec, pool)
  }

  /** All other pools off the wire. */
  ghost predicate Unsteady(spec: PoolSpec, pool: NodePool) {
    OffTheWire(pool) && !(Settles(spec, pool) && Placeable(spec, pool))
  }

  lemma MutationDescends(spec: PoolSpec, pool: NodePool)
    requires Steady(spec, pool)
    ensures !NextMutation(spec, pool).Panic?
    ensures NextMutation(spec, pool).Nothing? <==> Rank(spec, pool) == 0
    ensures NextMutation(spec, pool).Send? ==>
              var pool' := ApplyMutation(NextMutation(spec, pool).mutation, pool);
              Steady(spec, pool') && Rank(spec, pool') < Rank(spec, pool)
  {
    if NeedsConfig(spec, pool) {
      ConfigDescends(spec, pool);
    } else if NeedsAutoscaling(spec, pool) {
      SameConfig(spec, pool, pool.(autoscaling := Some(ConvertAutoscaling(spec.scaling))));
    } else if CheckSize(spec, pool).Resize? {
      SameConfig(spec, pool, pool.(initialNodeCount := CheckSize(spec, pool).count));
    }
  }

  lemma PlaceableAfter(spec: PoolSpec, pool: NodePool)
    requires OffTheWire(pool)
    ensures Placeable(spec, Apply(ConfigRequest(spec, pool), pool)) == Placeable(spec, pool)
  {
  }

  /** An unsteady pool has something to send, or divides by zero; and what it sends leaves it unsteady. */
  lemma UnsteadyGoesOn(spec: PoolSpec, pool: NodePool)
    requires Unsteady(spec, pool)
    ensures !NextMutation(spec, pool).Nothing?
    ensures NextMutation(spec, pool).Send? ==> Unsteady(spec, ApplyMutation(NextMutation(spec, pool).mutation, pool))
  {
    if NeedsConfig(spec, pool) {
      hide NeedsConfig, Apply, ConfigRequest, Settles, Placeable;
      AfterUpdate(spec, pool);
      UpdateSettlesIff(spec, pool);
      PlaceableAfter(spec, pool);
    } else {
      hide ConvertVersion, ConvertTaints, ConvertLinux, ResourceLabels;
      if !Settles(spec, pool) { UnsettledNeeds(spec, pool); }
      if NeedsAutoscaling(spec, pool) {
        SameConfig(spec, pool, pool.(autoscaling := Some(ConvertAutoscaling(spec.scaling))));
      }
    }
  }

  lemma ConfigDescends(spec: PoolSpec, pool: NodePool)
    requires Steady(spec, pool) && NeedsConfig(spec, pool)
    ensures var pool' := Apply(ConfigRequest(spec, pool), pool);
      Steady(spec, pool') && Rank(spec, pool') < Rank(spec, pool)
  {
    hide Apply, ConfigRequest, NeedsConfig, Settles, NeedsAutoscaling, Placeable;
    AfterUpdate(spec, pool);
    PlaceableAfter(spec, pool);
    UpdateSettlesIff(spec, pool);
  }

  lemma SameConfig(spec: PoolSpec, pool: NodePool, pool': NodePool)
    requires pool'.config == pool.config && pool'.version == pool.version && pool'.locations == pool.locations
    ensures NeedsConfig(spec, pool') == NeedsConfig(spec, pool)
    ensures Steady(spec, pool') == Steady(spec, pool) && Unsteady(spec, pool') == Unsteady(spec, pool)
  {
  }

  /** A pool stays as created: with autoscaling off and the zones preflight counted on, no size update follows. */
  lemma NoResizeAfterCreation(spec: PoolSpec, zones: seq<string>)
    requires Parse(spec.clusterLocation).Some? && !ConvertAutoscaling(spec.scaling).enabled
    requires |Created(spec, zones).locations.GetOr([])| == ZoneCount(Managed(spec))
    ensures CheckSize(spec, Created(spec, zones)) == SizeFits
  {
    RegionIsRegional(spec.clusterLocation);
  }
}
