/**
  What a node pool at rest is like: every compared field as the spec wishes, read off the spec without the
  conversions and comparisons of the service; and what a new pool still lacks.
 */
module NodePoolWishes {
  import opened CloudApi
  import opened Text
  import opened Locations
  import opened NodePoolSpec
  import opened NodePoolConvergence

  // ----- versions -----

  /** A leading 'v' and everything from the first dash on are left aside. */
  lemma VersionForms(core: string, rest: string)
    requires 'v' !in core && '-' !in core
    ensures ConvertVersion(core) == core && ConvertVersion("v" + core) == core
    ensures ConvertVersion(core + "-" + rest) == core && ConvertVersion("v" + core + "-" + rest) == core
  {
    var full := "v" + core;
    assert full[0] == 'v' && full[1..] == core;
    assert RemoveFirst(full, 'v') == core && RemoveFirst(core, 'v') == core;
    SplitFree(core, '-');
    SplitFree(full, '-');
    SplitAppend(core, '-', rest);
    SplitAppend(full, '-', rest);
  }

  // ----- taints -----

  ghost predicate TaintWished(t: Taint, sdk: SdkTaint) {
    && sdk.key == t.key && sdk.value == t.value
    && (sdk.effect == NoSchedule <==> t.effect == "NoSchedule")
    && (sdk.effect == NoExecute <==> t.effect == "NoExecute")
    && (sdk.effect == PreferNoSchedule <==> t.effect == "PreferNoSchedule")
  }

  ghost predicate TaintsWished(taints: Option<seq<Taint>>, sdk: Option<seq<SdkTaint>>) {
    && (taints.Some? <==> sdk.Some?)
    && (taints.Some? ==>
          && |taints.value| == |sdk.value|
          && forall i :: 0 <= i < |sdk.value| ==> TaintWished(taints.value[i], sdk.value[i]))
  }

  lemma TaintsIff(taints: Option<seq<Taint>>, sdk: Option<seq<SdkTaint>>)
    ensures ConvertTaints(taints) == sdk <==> TaintsWished(taints, sdk)
  {
    if taints.Some? && sdk.Some? && TaintsWished(taints, sdk) {
      assert forall i :: 0 <= i < |sdk.value| ==> ConvertTaint(taints.value[i]) == sdk.value[i];
      assert ConvertTaints(taints).value == sdk.value;
    }
  }

  // ----- linux -----

  /** The entry decides its parameter: none after it names the same one. */
  ghost predicate Decides(s: seq<Sysctl>, i: int) {
    0 <= i < |s| && forall j :: i < j < |s| ==> s[j].parameter != s[i].parameter
  }

  ghost predicate SysctlsWished(s: seq<Sysctl>, m: map<string, string>) {
    && (forall i :: 0 <= i < |s| && Decides(s, i) ==> s[i].parameter in m && m[s[i].parameter] == s[i].value)
    && (forall p :: p in m ==> exists i :: 0 <= i < |s| && Decides(s, i) && s[i].parameter == p)
  }

  lemma DecidesIff(rest: seq<Sysctl>, x: Sysctl, i: nat)
    requires i < |rest|
    ensures Decides(rest + [x], i) <==> Decides(rest, i) && rest[i].parameter != x.parameter
  {
    var s := rest + [x];
    assert s[|rest|] == x && s[i] == rest[i];
    if Decides(s, i) {
      assert forall j :: i < j < |rest| ==> rest[j] == s[j];
    }
  }

  lemma SysctlStep(rest: seq<Sysctl>, x: Sysctl, m: map<string, string>)
    requires SysctlsWished(rest, m)
    ensures SysctlsWished(rest + [x], m[x.parameter := x.value])
  {
    var s, m' := rest + [x], m[x.parameter := x.value];
    assert Decides(s, |rest|);
    hide Decides;
    forall i | 0 <= i < |rest|
      ensures s[i] == rest[i] && (Decides(s, i) <==> Decides(rest, i) && rest[i].parameter != x.parameter)
    {
      DecidesIff(rest, x, i);
    }
    forall p | p in m' ensures exists i :: 0 <= i < |s| && Decides(s, i) && s[i].parameter == p {
      if p != x.parameter {
        var i :| 0 <= i < |rest| && Decides(rest, i) && rest[i].parameter == p;
        assert Decides(s, i);
      }
    }
  }

  lemma {:induction false} SysctlMapWished(s: seq<Sysctl>)
    ensures SysctlsWished(s, SysctlMap(s))
  {
    if s == [] {
      assert forall i :: !Decides(s, i);
    } else {
      var rest, x := s[..|s| - 1], s[|s| - 1];
      assert s == rest + [x];
      SysctlMapWished(rest);
      SysctlStep(rest, x, SysctlMap(rest));
    }
  }

  lemma SysctlsIff(s: seq<Sysctl>, m: map<string, string>)
    ensures SysctlMap(s) == m <==> SysctlsWished(s, m)
  {
    SysctlMapWished(s);
    if SysctlsWished(s, m) {
      var m' := SysctlMap(s);
      forall p | p in m ensures p in m' && m'[p] == m[p] {
        var i :| 0 <= i < |s| && Decides(s, i) && s[i].parameter == p;
      }
      forall p | p in m' ensures p in m {
        var i :| 0 <= i < |s| && Decides(s, i) && s[i].parameter == p;
      }
      assert m' == m;
    }
  }

  ghost predicate LinuxWished(linux: Option<LinuxNodeConfig>, sdk: Option<SdkLinuxConfig>) {
    && sdk.Some?
    && (sdk.value.sysctls.Some? <==> linux.Some? && linux.value.sysctls.Some?)
    && (sdk.value.sysctls.Some? ==> SysctlsWished(linux.value.sysctls.value, sdk.value.sysctls.value))
    && (sdk.value.cgroupMode == CgroupV1 <==> linux.Some? && linux.value.cgroupMode == Some(1))
    && (sdk.value.cgroupMode == CgroupV2 <==> linux.Some? && linux.value.cgroupMode == Some(2))
  }

  lemma LinuxIff(linux: Option<LinuxNodeConfig>, sdk: Option<SdkLinuxConfig>)
    ensures Some(ConvertLinux(linux)) == sdk <==> LinuxWished(linux, sdk)
  {
    hide SysctlsWished, SysctlMap;
    if linux.Some? && linux.value.sysctls.Some? && sdk.Some? && sdk.value.sysctls.Some? {
      SysctlsIff(linux.value.sysctls.value, sdk.value.sysctls.value);
    }
  }

  // ----- labels of the cloud resource -----

  /** The user's labels, and over them the tag that marks the pool as owned by its cluster. */
  ghost predicate ResourceLabelsWished(spec: PoolSpec, labels: Option<Labels>) {
    && labels.Some? && "capg-cluster-" + spec.clusterName in labels.value
    && labels.value["capg-cluster-" + spec.clusterName] == "owned"
    && forall k :: k != "capg-cluster-" + spec.clusterName ==>
         (k in labels.value <==> spec.additionalLabels.Some? && k in spec.additionalLabels.value)
         && (k in labels.value ==> labels.value[k] == spec.additionalLabels.value[k])
  }

  lemma ResourceLabelsIff(spec: PoolSpec, labels: Option<Labels>)
    ensures Some(ResourceLabels(spec)) == labels <==> ResourceLabelsWished(spec, labels)
  {
    if ResourceLabelsWished(spec, labels) { assert ResourceLabels(spec) == labels.value; }
  }

  // ----- scaling and size -----

  predicate ScalingOff(scaling: Option<Scaling>) { scaling.Some? && scaling.value.enable == Some(false) }

  ghost predicate ScalingWished(scaling: Option<Scaling>, a: Option<Autoscaling>) {
    && a.Some?
    && if ScalingOff(scaling) then a.value == Autoscaling(false, 0, 0, PolicyUnspecified)
       else
         var s := if scaling.Some? then scaling.value else Scaling(None, None, None, None);
         && a.value.enabled
         && a.value.totalMin == (if s.min.Some? then s.min.value else 0)
         && a.value.totalMax == (if s.max.Some? then s.max.value else 1)
         && (a.value.policy == Balanced <==> s.policy == None || s.policy == Some("balanced"))
         && (a.value.policy == Any <==> s.policy == Some("any"))
  }

  lemma ScalingIff(scaling: Option<Scaling>, a: Option<Autoscaling>)
    ensures Some(ConvertAutoscaling(scaling)) == a <==> ScalingWished(scaling, a)
  {
  }

  /** `n` nodes in each of `zones` zones are as many as the replicas allow. */
  ghost predicate Spread(replicas: int, zones: int, n: int) {
    if replicas >= 0 then n * zones <= replicas < (n + 1) * zones else (n - 1) * zones < replicas <= n * zones
  }

  lemma SpreadIff(replicas: int, zones: int, n: int)
    requires zones > 0
    ensures Quotient(replicas, zones) == n <==> Spread(replicas, zones, n)
  {
    var q := Quotient(replicas, zones);
    assert Spread(replicas, zones, q) by {
      if replicas < 0 { assert (-q) * zones <= -replicas < (-q + 1) * zones; }
    }
    if Spread(replicas, zones, n) && n != q {
      var low, high := if n < q then n else q, if n < q then q else n;
      StepUp(low + 1, high, zones);
      StepUp(low, high - 1, zones);
      assert false;
    }
  }

  lemma StepUp(a: int, b: int, zones: int)
    requires a <= b && zones > 0
    ensures a * zones <= b * zones
  {
  }

  /** With autoscaling off the node count is what the replicas come to: per zone, if the location can be parsed. */
  ghost predicate SizeWished(spec: PoolSpec, pool: NodePool) {
    ScalingOff(spec.scaling) ==>
      if '-' !in spec.clusterLocation then pool.initialNodeCount == spec.owner.replicas
      else
        && pool.locations.Some? && pool.locations.value != []
        && Spread(spec.owner.replicas, |pool.locations.value|, pool.initialNodeCount)
  }

  lemma SizeIff(spec: PoolSpec, pool: NodePool)
    ensures CheckSize(spec, pool) == SizeFits <==> SizeWished(spec, pool)
  {
    hide Spread, Parse;
    RegionIsRegional(spec.clusterLocation);
    CountZero(spec.clusterLocation, '-');
    var zones := |pool.locations.GetOr([])|;
    if zones > 0 { SpreadIff(spec.owner.replicas, zones, pool.initialNodeCount); }
    if Parse(spec.clusterLocation).None? { assert !IsRegional(""); }
  }

  // ----- the whole pool -----

  /** Every compared field is as the spec wishes it; what the spec leaves open is not compared. */
  ghost predicate AsWished(spec: PoolSpec, pool: NodePool) {
    var c := if pool.config.Some? then pool.config.value else NodeConfig(None, None, "", None, None, None);
    && (spec.version != "" ==> ConvertVersion(spec.version) == ConvertVersion(pool.version))
    && spec.labels == c.labels && TaintsWished(spec.taints, c.taints)
    && (spec.imageType.Some? && spec.imageType.value != "" ==> Lower(spec.imageType.value) == Lower(c.imageType))
    && ResourceLabelsWished(spec, c.resourceLabels)
    && (spec.locations.Some? ==> pool.locations == spec.locations)
    && (pool.config.Some? ==> c.tags == spec.tags)
    && LinuxWished(spec.linux, c.linux)
    && ScalingWished(spec.scaling, pool.autoscaling) && SizeWished(spec, pool)
  }

  /** The service sends nothing exactly when the pool is as wished. */
  lemma RestIffAsWished(spec: PoolSpec, pool: NodePool)
    ensures NextMutation(spec, pool) == Nothing <==> AsWished(spec, pool)
  {
    hide ConvertVersion, ConvertTaints, ConvertLinux, ConvertAutoscaling, CheckSize, TaintsWished, LinuxWished,
      ResourceLabelsWished, ScalingWished, SizeWished, ResourceLabels, Lower;
    var c := ConfigOf(pool);
    TaintsIff(spec.taints, c.taints);
    LinuxIff(spec.linux, c.linux);
    ResourceLabelsIff(spec, c.resourceLabels);
    ScalingIff(spec.scaling, pool.autoscaling);
    SizeIff(spec, pool);
  }

  /** A configuration request names exactly the fields that are not as wished, each with the wished value. */
  lemma RequestIff(spec: PoolSpec, pool: NodePool)
    ensures var r := ConfigRequest(spec, pool);
      var c := if pool.config.Some? then pool.config.value else NodeConfig(None, None, "", None, None, None);
      && r.version == (if spec.version == "" || ConvertVersion(spec.version) == ConvertVersion(pool.version) then ""
                       else ConvertVersion(spec.version))
      && r.labels == (if spec.labels == c.labels then None else Some(spec.labels))
      && (r.taints.None? <==> TaintsWished(spec.taints, c.taints))
      && (r.taints.Some? ==> TaintsWished(spec.taints, r.taints.value))
      && (r.imageType != "" <==>
            && spec.imageType.Some? && spec.imageType.value != ""
            && Lower(spec.imageType.value) != Lower(c.imageType))
      && (r.imageType != "" ==> r.imageType == spec.imageType.value)
      && (r.resourceLabels.None? <==> ResourceLabelsWished(spec, c.resourceLabels))
      && (r.resourceLabels.Some? ==> ResourceLabelsWished(spec, r.resourceLabels.value))
      && r.locations == (if spec.locations == pool.locations then None else spec.locations)
      && r.tags == (if pool.config.None? || c.tags == spec.tags then None else Some(spec.tags))
      && (r.linux.None? <==> LinuxWished(spec.linux, c.linux))
      && (r.linux.Some? ==> LinuxWished(spec.linux, r.linux))
  {
    hide ConvertVersion, ConvertTaints, ConvertLinux, TaintsWished, LinuxWished, ResourceLabelsWished, ResourceLabels,
      Lower;
    var c, r := ConfigOf(pool), ConfigRequest(spec, pool);
    TaintsIff(spec.taints, c.taints);
    TaintsIff(spec.taints, ConvertTaints(spec.taints));
    LinuxIff(spec.linux, c.linux);
    LinuxIff(spec.linux, Some(ConvertLinux(spec.linux)));
    ResourceLabelsIff(spec, c.resourceLabels);
    ResourceLabelsIff(spec, Some(ResourceLabels(spec)));
  }

  /** What is sent first: the configuration, once that is right the scaling, and once that is right the size. */
  lemma NextIs(spec: PoolSpec, pool: NodePool)
    ensures match NextMutation(spec, pool)
      case Send(UpdatePool(r)) => r == ConfigRequest(spec, pool)
      case Send(SetAutoscaling(a)) =>
        && ConfigRequest(spec, pool) == EmptyRequest
        && ScalingWished(spec.scaling, Some(a)) && !ScalingWished(spec.scaling, pool.autoscaling)
      case Send(SetSize(n)) =>
        && ConfigRequest(spec, pool) == EmptyRequest && ScalingWished(spec.scaling, pool.autoscaling)
        && SizeWished(spec, pool.(initialNodeCount := n)) && !SizeWished(spec, pool)
      case Nothing => AsWished(spec, pool)
      case Panic => ScalingOff(spec.scaling) && '-' in spec.clusterLocation && pool.locations.GetOr([]) == []
  {
    hide ConvertVersion, ConvertTaints, ConvertLinux, ConvertAutoscaling, ResourceLabels, Lower, AsWished, SizeWished,
      ScalingWished;
    RestIffAsWished(spec, pool);
    ScalingIff(spec.scaling, pool.autoscaling);
    ScalingIff(spec.scaling, Some(ConvertAutoscaling(spec.scaling)));
    SizeIff(spec, pool);
    if CheckSize(spec, pool).Resize? { SizeIff(spec, pool.(initialNodeCount := CheckSize(spec, pool).count)); }
    if CheckSize(spec, pool).DividesByZero? { PanicsWhere(spec, pool); }
  }

  lemma PanicsWhere(spec: PoolSpec, pool: NodePool)
    requires CheckSize(spec, pool).DividesByZero?
    ensures ScalingOff(spec.scaling) && '-' in spec.clusterLocation && pool.locations.GetOr([]) == []
  {
    RegionIsRegional(spec.clusterLocation);
    CountZero(spec.clusterLocation, '-');
    assert !IsRegional("");
  }

  // ----- new pools -----

  /** What creation stores of the version compares equal unless the first part holds more than one 'v'. */
  lemma CreatedVersionIff(version: string)
    ensures ConvertVersion(RemoveFirst(version, 'v')) == ConvertVersion(version) <==>
              Count(Split(version, '-')[0], 'v') <= 1
  {
    var first := Split(version, '-')[0];
    SplitParts(version, '-');
    assert first in Split(version, '-');
    FirstPart(version);
    var i := Index(version, 'v');
    RemoveFirstCounts(first, 'v');
    RemoveFirstCounts(RemoveFirst(first, 'v'), 'v');
    CountZero(first, 'v');
    CountZero(RemoveFirst(first, 'v'), 'v');
    if i < |first| {
      VInFirst(version, first, i);
    } else {
      VLater(version, first, i);
    }
  }

  /** The first part is what stands before the first dash. */
  lemma {:induction false} FirstPart(s: string)
    ensures var first := Split(s, '-')[0];
      && '-' !in first && first <= s && (|first| < |s| ==> s[|first|] == '-')
  {
    if s != "" {
      FirstPart(s[1..]);
      var rest := Split(s[1..], '-')[0];
      if s[0] != '-' { assert ([s[0]] + rest) <= s; }
    }
  }

  lemma PartOf(s: string, first: string)
    requires '-' !in first && first <= s && (|first| < |s| ==> s[|first|] == '-')
    ensures Split(s, '-')[0] == first
  {
    if |first| == |s| {
      SplitFree(s, '-');
    } else {
      assert s == first + ['-'] + s[|first| + 1..];
      SplitAppend(first, '-', s[|first| + 1..]);
    }
  }

  lemma VInFirst(version: string, first: string, i: nat)
    requires '-' !in first && first <= version && (|first| < |version| ==> version[|first|] == '-')
    requires i == Index(version, 'v') < |first|
    ensures Split(RemoveFirst(version, 'v'), '-')[0] == RemoveFirst(first, 'v')
  {
    hide Split, Index;
    SameIndex(first, version);
    var cut, tail := first[..i] + first[i + 1..], version[|first|..];
    assert version == first + tail;
    assert version[..i] == first[..i] && version[i + 1..] == first[i + 1..] + tail;
    assert version[..i] + version[i + 1..] == cut + tail;
    PartOf(RemoveFirst(version, 'v'), cut);
  }

  lemma SameIndex(first: string, s: string)
    requires first <= s && Index(s, 'v') < |first|
    ensures Index(first, 'v') == Index(s, 'v')
  {
    var i, j := Index(s, 'v'), Index(first, 'v');
    assert first[i] == s[i] == 'v';
  }

  lemma VLater(version: string, first: string, i: nat)
    requires '-' !in first && first <= version && (|first| < |version| ==> version[|first|] == '-')
    requires i == Index(version, 'v') && |first| <= i
    ensures Split(RemoveFirst(version, 'v'), '-')[0] == first && 'v' !in first
  {
    assert first == version[..|first|];
    if i < |version| {
      assert version[|first|] == '-' && i > |first|;
      assert first <= RemoveFirst(version, 'v');
    }
    PartOf(RemoveFirst(version, 'v'), first);
  }

  /**
    What follows creation: a configuration update exactly if no linux configuration is wished, some wished collection
    is present but empty, or the version cannot be stored; an autoscaling request exactly if no scaling is wished.
   */
  lemma CreationLacksIff(spec: PoolSpec, zones: seq<string>)
    ensures NeedsConfig(spec, Created(spec, zones)) <==>
              spec.linux.None? || !SpecSettles(spec) || Count(Split(spec.version, '-')[0], 'v') > 1
    ensures NeedsAutoscaling(spec, Created(spec, zones)) <==> spec.scaling.None?
  {
    hide ConvertVersion, ConvertAutoscaling, InitialNodeCount, InRegion, Split, Count;
    CreatedVersionIff(spec.version);
    EmptyVersion();
    UpperFolds(spec.imageType.GetOr(""));
    if spec.linux.Some? && spec.linux.value.sysctls.Some? { SysctlsEmptyIff(spec.linux.value.sysctls.value); }
  }

  lemma EmptyVersion()
    ensures Count(Split("", '-')[0], 'v') == 0
  {
  }
}
