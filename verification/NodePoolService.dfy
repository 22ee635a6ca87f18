/** The node pool service and its controller as objects that update conditions and status in place. */
module NodePoolService {
  import opened CloudApi
  import opened Conditions
  import opened Text
  import opened ProviderIds
  import opened Locations
  import opened NodePoolSpec
  import opened NodePoolConvergence
  import opened NodePoolRounds

  // ----- conversions with loops -----

  method BuildTaints(taints: Option<seq<Taint>>) returns (r: Option<seq<SdkTaint>>)
    ensures r == ConvertTaints(taints)
  {
    if taints.None? {
      return None;
    }
    var res: seq<SdkTaint> := [];
    for i := 0 to |taints.value|
      invariant |res| == i && forall j :: 0 <= j < i ==> res[j] == ConvertTaint(taints.value[j])
    {
      res := res + [SdkTaint(taints.value[i].key, taints.value[i].value, ConvertEffect(taints.value[i].effect))];
    }
    assert res == ConvertTaints(taints).value;
    return Some(res);
  }

  method BuildLinuxNodeConfig(linux: Option<LinuxNodeConfig>) returns (r: SdkLinuxConfig)
    ensures r == ConvertLinux(linux)
  {
    r := SdkLinuxConfig(None, CgroupUnspecified);
    if linux.Some? {
      if linux.value.sysctls.Some? {
        var list := linux.value.sysctls.value;
        var m: map<string, string> := map[];
        for i := 0 to |list|
          invariant m == SysctlMap(list[..i])
        {
          assert list[..i + 1][..i] == list[..i];
          m := m[list[i].parameter := list[i].value];
        }
        assert list[..|list|] == list;
        r := r.(sysctls := Some(m));
      }
      if linux.value.cgroupMode.Some? {
        r := r.(cgroupMode := ConvertCgroup(linux.value.cgroupMode.value));
      }
    }
  }

  method BuildAutoscaling(scaling: Option<Scaling>) returns (r: Autoscaling)
    ensures r == ConvertAutoscaling(scaling)
  {
    r := Autoscaling(true, 0, 1, Balanced);
    if scaling.Some? {
      var s := scaling.value;
      if s.min.Some? { r := r.(totalMin := s.min.value); }
      if s.max.Some? { r := r.(totalMax := s.max.value); }
      if s.policy.Some? { r := r.(policy := ConvertPolicy(s.policy.value)); }
      if s.enable.Some? {
        if !s.enable.value { r := Autoscaling(false, 0, 0, PolicyUnspecified); }
      }
    }
  }

  // ----- the service -----

  class Service {
    const spec: PoolSpec
    var conditions: ConditionMap
    var ready: bool
    var providerIds: seq<string>
    var replicas: int
    var finalizer: bool
    var pool: Option<NodePool>
    var sent: seq<Sent>

    constructor (spec: PoolSpec, s: State)
      ensures this.spec == spec && Value() == s
    {
      this.spec := spec;
      conditions, ready, providerIds, replicas := s.conditions, s.ready, s.providerIds, s.replicas;
      finalizer, pool, sent := s.finalizer, s.pool, s.sent;
    }

    ghost function Value(): State
      reads this
    {
      State(conditions, ready, providerIds, replicas, finalizer, pool, sent)
    }

    method CheckDiffAndPrepareUpdateConfig(existing: NodePool) returns (needUpdate: bool, request: UpdateRequest)
      ensures needUpdate == NeedsConfig(spec, existing) && request == ConfigRequest(spec, existing)
    {
      hide ConvertVersion, ConvertTaints, ConvertLinux, ResourceLabels, EqualFold;
      needUpdate, request := false, EmptyRequest;
      var config := ConfigOf(existing);
      if spec.version != "" {
        var desired := ConvertVersion(spec.version);
        if desired != ConvertVersion(existing.version) {
          needUpdate, request := true, request.(version := desired);
        }
      }
      if spec.labels != config.labels {
        needUpdate, request := true, request.(labels := Some(spec.labels));
      }
      var taints := BuildTaints(spec.taints);
      if taints != config.taints {
        needUpdate, request := true, request.(taints := Some(taints));
      }
      var image := spec.imageType.GetOr("");
      if image != "" && !EqualFold(image, config.imageType) {
        needUpdate, request := true, request.(imageType := image);
      }
      if Some(ResourceLabels(spec)) != config.resourceLabels {
        needUpdate, request := true, request.(resourceLabels := Some(Some(ResourceLabels(spec))));
      }
      if spec.locations.Some? && spec.locations != existing.locations {
        needUpdate, request := true, request.(locations := spec.locations);
      }
      if existing.config.Some? && spec.tags != config.tags {
        needUpdate, request := true, request.(tags := Some(spec.tags));
      }
      var linux := BuildLinuxNodeConfig(spec.linux);
      if Some(linux) != config.linux {
        needUpdate, request := true, request.(linux := Some(linux));
      }
    }

    /** Sends one request; where it is accepted the pool counts as updating. */
    method Update(m: Mutation, input: Input) returns (r: Result)
      requires pool.Some?
      modifies this`pool, this`sent, this`conditions
      ensures (Value(), r) == SendUpdate(old(Value()), m, input)
    {
      sent := sent + [Sent(m, input.fault)];
      if !input.fault.FailsBefore? {
        pool := Some(ApplyMutation(m, pool.value));
      }
      if !input.fault.Works? {
        return ApiError(input);
      }
      conditions := MarkTrue(conditions, Updating);
      return Requeue;
    }

    method ChooseMutation() returns (c: Choice)
      requires pool.Some?
      ensures c == NextMutation(spec, pool.value)
    {
      hide NeedsConfig, ConfigRequest, ConvertAutoscaling;
      var needUpdate, request := CheckDiffAndPrepareUpdateConfig(pool.value);
      if needUpdate {
        return Send(UpdatePool(request));
      }
      var autoscaling := BuildAutoscaling(spec.scaling);
      if Some(autoscaling) != pool.value.autoscaling {
        return Send(SetAutoscaling(autoscaling));
      }
      match CheckSize(spec, pool.value) {
        case Resize(n) => return Send(SetSize(n));
        case DividesByZero => return Panic;
        case SizeFits => return Nothing;
      }
    }

    method MarkRunning()
      modifies this`conditions
      ensures conditions == RunningConditions(old(conditions))
    {
      conditions := MarkTrue(conditions, Ready);
      conditions := MarkTrue(conditions, ResourceReady);
      conditions := MarkFalse(conditions, Creating, CreatedReason);
    }

    method ReconcileRunning(input: Input) returns (r: Result)
      requires pool.Some?
      modifies this
      ensures (Value(), r) == UpdateRunning(spec, old(Value()), input)
    {
      hide NextMutation, ApplyMutation, RunningConditions, MarkFalse;
      MarkRunning();
      var choice := ChooseMutation();
      match choice {
        case Send(m) =>
          r := Update(m, input);
        case Panic =>
          r := Panicked;
        case Nothing =>
          RemarkRunning(old(conditions));
          conditions := MarkFalse(conditions, Updating, UpdatedReason);
          replicas := |providerIds|;
          MarkRunning();
          r := Finished;
      }
    }

    method CreateNodePool(input: Input) returns (r: Result)
      requires pool == None
      modifies this`pool, this`conditions
      ensures (Value(), r) == Create(spec, old(Value()), input)
    {
      var ok := Preflight(Managed(spec), spec.owner, RegionName(spec.clusterLocation));
      if ok && !input.fault.FailsBefore? {
        pool := Some(Created(spec, input.zones));
      }
      if !ok || !input.fault.Works? {
        conditions := MarkFalse(conditions, Ready, FailedReason);
        conditions := MarkFalse(conditions, ResourceReady, FailedReason);
        conditions := MarkFalse(conditions, Creating, FailedReason);
        return if ok then ApiError(input) else Errored;
      }
      conditions := MarkFalse(conditions, Ready, CreatingReason);
      conditions := MarkFalse(conditions, ResourceReady, CreatingReason);
      conditions := MarkTrue(conditions, Creating);
      return Requeue;
    }

    method CollectProviderIds(urls: seq<string>) returns (ids: Option<seq<string>>)
      ensures ids == ParseAll(urls)
      ensures ids == None <==> exists i :: 0 <= i < |urls| && FromResourceUrl(urls[i]) == None
      ensures ids != None ==>
                |ids.value| == |urls| && forall i :: 0 <= i < |urls| ==>
                  FromResourceUrl(urls[i]).Some? && ids.value[i] == FromResourceUrl(urls[i]).value.Text()
    {
      ParseAllIff(urls);
      var list := [];
      for i := 0 to |urls|
        invariant ParseAll(urls[..i]) == Some(list)
      {
        assert urls[..i + 1][..i] == urls[..i];
        var id := FromResourceUrl(urls[i]);
        if id.None? {
          return None;
        }
        list := list + [id.value.Text()];
      }
      assert urls[..|urls|] == urls;
      return Some(list);
    }

    method ReconcileBodyOf(input: Input) returns (r: Result)
      modifies this
      ensures (Value(), r) == ReconcileBody(spec, old(Value()), input)
    {
      hide UpdateRunning, Create, ParseAll;
      if input.describeFails {
        conditions := MarkFalse(conditions, Ready, FailedReason);
        return ApiError(input);
      }
      if pool.None? {
        r := CreateNodePool(input);
        return;
      }
      if input.instances.None? {
        conditions := MarkFalse(conditions, Ready, FailedReason);
        return Errored;
      }
      var ids := CollectProviderIds(input.instances.value);
      if ids.None? {
        conditions := MarkFalse(conditions, ResourceReady, ErrorReason);
        return Errored;
      }
      providerIds := ids.value;
      replicas := |ids.value|;
      match pool.value.status {
        case Provisioning =>
          conditions := MarkFalse(conditions, Ready, CreatingReason);
          conditions := MarkFalse(conditions, ResourceReady, CreatingReason);
          conditions := MarkTrue(conditions, Creating);
          return Requeue;
        case Reconciling =>
          conditions := MarkTrue(conditions, Updating);
          return Requeue;
        case Stopping =>
          conditions := MarkFalse(conditions, Ready, DeletingReason);
          conditions := MarkFalse(conditions, ResourceReady, DeletingReason);
          conditions := MarkTrue(conditions, Deleting);
          return Finished;
        case InError =>
          conditions := MarkFalse(conditions, ResourceReady, ErrorReason);
          return Finished;
        case RunningWithError =>
          conditions := MarkFalse(conditions, ResourceReady, ErrorReason);
          return Finished;
        case Running =>
          r := ReconcileRunning(input);
        case OtherStatus =>
          return Finished;
      }
    }

    method SetReadyStatus()
      modifies this`ready
      ensures Value() == SetReadyFromConditions(old(Value()))
    {
      ready := IsTrue(conditions, Ready) || IsTrue(conditions, Updating);
    }

    method ReconcilePool(input: Input) returns (r: Result)
      modifies this
      ensures (Value(), r) == Reconcile(spec, old(Value()), input) && ReadyMatches(Value())
    {
      hide ReconcileBody;
      r := ReconcileBodyOf(input);
      SetReadyStatus();
    }

    method DeleteBodyOf(input: Input) returns (r: Result)
      modifies this
      ensures (Value(), r) == DeleteBody(old(Value()), input)
    {
      if input.describeFails {
        return ApiError(input);
      }
      if pool.None? {
        conditions := MarkFalse(conditions, Deleting, DeletedReason);
        return Finished;
      }
      if pool.value.status.Provisioning? || pool.value.status.Reconciling? {
        return Requeue;
      }
      if pool.value.status.Stopping? {
        conditions := MarkFalse(conditions, ResourceReady, DeletingReason);
        conditions := MarkTrue(conditions, Deleting);
        return Requeue;
      }
      if !input.fault.FailsBefore? {
        pool := Some(pool.value.(status := Stopping));
      }
      if !input.fault.Works? {
        conditions := MarkFalse(conditions, Deleting, FailedReason);
        return ApiError(input);
      }
      conditions := MarkFalse(conditions, Ready, DeletingReason);
      conditions := MarkFalse(conditions, ResourceReady, DeletingReason);
      conditions := MarkTrue(conditions, Deleting);
      return Finished;
    }

    method DeletePool(input: Input) returns (r: Result)
      modifies this
      ensures (Value(), r) == NodePoolRounds.Delete(old(Value()), input) && ReadyMatches(Value())
    {
      hide DeleteBody;
      r := DeleteBodyOf(input);
      SetReadyStatus();
    }

    /** The controller's reconcile: the finalizer first, and a refusal is no error. */
    method ReconcileNormalPool(input: Input) returns (r: Result)
      modifies this
      ensures (Value(), r) == ReconcileNormal(spec, old(Value()), input) && ReadyMatches(Value())
    {
      hide ReconcileBody;
      finalizer := true;
      r := ReconcilePool(input);
      if r == FailedPrecondition {
        r := Requeue;
      }
    }

    /** The controller: the finalizer goes in exactly the calls that found no pool, and nothing panics. */
    method ReconcileDeletePool(input: Input) returns (r: Result)
      requires finalizer
      modifies this
      ensures (Value(), r) == ReconcileDelete(old(Value()), input)
      ensures !finalizer <==> !input.describeFails && old(pool).None?
    {
      FinalizerGoesIff(Value(), input);
      r := DeletePool(input);
      if r == FailedPrecondition {
        return Requeue;
      }
      if r != Finished {
        return;
      }
      if conditions[Deleting].reason == DeletedReason {
        finalizer := false;
      }
      return Requeue;
    }
  }

  /** Marking a running pool twice adds nothing. */
  lemma RemarkRunning(cs: ConditionMap)
    ensures RunningConditions(MarkFalse(RunningConditions(cs), Updating, UpdatedReason))
         == MarkFalse(RunningConditions(cs), Updating, UpdatedReason)
  {
  }
}
