/**
  The services of a GCPCluster round: each is called in its order, the first failure ends the round, and neither is the
  finalizer given up nor the cluster called ready unless all of them succeeded.
 */
module GCPClusterServices {
  import opened CloudApi
  import opened LoadBalancerSpec
  import opened LoadBalancerInvariant
  import opened LoadBalancerSteps
  import opened LoadBalancerPrefix
  import opened LoadBalancerRuns
  import LoadBalancerContents
  import opened GCPClusterAdmission
  import opened GCPClusterController
  import opened GCPClusterInvariant
  import opened GCPClusterHistories

  ghost predicate AllOk(others: Others) { others.networks.ok && others.firewalls.ok && others.subnets.ok }

  /** What the log says of another service's calls. */
  function Heard(clouds: seq<Cloud>, finalizer: bool): seq<Event> {
    seq(|clouds|, i requires 0 <= i < |clouds| => Event(Elsewhere, clouds[i], finalizer))
  }

  lemma {:induction false} StageHeard(w: World, s: Stage)
    ensures var r := RunStage(w, s);
      && (r.Done? <==> s.ok) && r.w.finalizer == w.finalizer && r.w.log == w.log + Heard(s.clouds, w.finalizer)
      && r.w.cloud == (if s.clouds == [] then w.cloud else s.clouds[|s.clouds| - 1])
    decreases |s.clouds|
  {
    if s.clouds != [] {
      var rest := s.(clouds := s.clouds[1..]);
      StageHeard(Called(w, Elsewhere, s.clouds[0]), rest);
      assert Heard(s.clouds, w.finalizer) ==
             [Event(Elsewhere, s.clouds[0], w.finalizer)] + Heard(rest.clouds, w.finalizer);
    }
  }

  /** Three services in a row: a failing one ends the row, and those after it are not called. */
  lemma ThreeHeard(w: World, a: Stage, b: Stage, c: Stage)
    ensures var r := RunStages(w, [a, b, c]); var f := w.finalizer;
      && (r.Done? <==> a.ok && b.ok && c.ok) && r.w.finalizer == f
      && r.w.log == w.log + Heard(a.clouds, f)
                    + (if a.ok then Heard(b.clouds, f) + (if b.ok then Heard(c.clouds, f) else []) else [])
  {
    hide RunStage, Heard;
    StageHeard(w, a);
    var r1 := RunStage(w, a);
    assert [a, b, c][1..] == [b, c] && [b, c][1..] == [c] && [c][1..] == [];
    if r1.Done? {
      StageHeard(r1.w, b);
      var r2 := RunStage(r1.w, b);
      if r2.Done? {
        StageHeard(r2.w, c);
        assert RunStages(r2.w, [c]).w == RunStage(r2.w, c).w && (RunStages(r2.w, [c]).Done? <==> c.ok);
      }
    }
  }

  lemma DeleteAppends(cfg: Config, w: World, order: seq<string>)
    ensures w.log <= DeleteAll(cfg, w, order).0.log
  {
    hide DeleteAll;
    assert Prefixed(w.log, w.(log := [])) == w;
    PrefixDeleteAll(w.log, cfg, w.(log := []), order);
  }

  lemma ReconcileAppends(cfg: Config, w: World, order: seq<string>)
    ensures w.log <= Reconcile(cfg, w, order).w.log
  {
    hide Reconcile;
    assert Prefixed(w.log, w.(log := [])) == w;
    PrefixReconcile(w.log, cfg, w.(log := []), order);
  }

  /**
    Deletion calls the load balancers first; only if they are gone the subnets, then the firewalls, then the networks,
    each only if the one before succeeded; and it succeeds exactly if all four do.
   */
  lemma DeletionCalls(name: string, spec: ClusterSpec, w: World, facts: Facts, order: seq<string>, others: Others)
    ensures var (w1, ok) := DeleteAll(ConfigOf(name, spec, facts), w, order);
      var r := ReconcileDelete(name, spec, w, facts, order, others); var f := w1.finalizer;
      && (r.Done? <==> ok && AllOk(others))
      && w.log <= w1.log && (!ok ==> r.w == w1)
      && (ok ==>
            r.w.log == w1.log + Heard(others.subnets.clouds, f)
                       + (if others.subnets.ok then
                            Heard(others.firewalls.clouds, f)
                            + (if others.firewalls.ok then Heard(others.networks.clouds, f) else [])
                          else []))
  {
    hide DeleteAll, RunStages, Heard;
    DeleteAppends(ConfigOf(name, spec, facts), w, order);
    var (w1, ok) := DeleteAll(ConfigOf(name, spec, facts), w, order);
    if ok { ThreeHeard(w1, others.subnets, others.firewalls, others.networks); }
  }

  /** The three events of a round that comes to its services. */
  ghost predicate Prepared(w: World, log: seq<Event>) {
    && |log| >= |w.log| + 3 && w.log <= log
    && log[|w.log|] == Event(Patch, w.cloud, true) && log[|w.log| + 1] == Event(Lookup, w.cloud, true)
    && log[|w.log| + 2] == Event(Lookup, w.cloud, true)
  }

  lemma PreparedWorld(w: World)
    requires PatchFinalizer(w, true).Done? && LookupCall(PatchFinalizer(w, true).w).Done?
    requires LookupCall(LookupCall(PatchFinalizer(w, true).w).w).Done?
    ensures var w3 := AfterLookups(w);
      && Prepared(w, w3.log) && |w3.log| == |w.log| + 3 && w3.finalizer && w3.cloud == w.cloud
  {
  }

  /**
    A Normal round that succeeds has first stored the finalizer and looked up region and zones, then called the
    networks, the firewalls and the subnets, each with success, and last the load balancers.
   */
  lemma NormalCalls(name: string, spec: ClusterSpec, w: World, facts: Facts, order: seq<string>, others: Others)
    requires ReconcileNormal(name, spec, w, facts, order, others).Done?
    ensures var r := ReconcileNormal(name, spec, w, facts, order, others);
      && AllOk(others) && Prepared(w, r.w.log)
      && r.w.log[..|w.log| + 3] + Heard(others.networks.clouds, true) + Heard(others.firewalls.clouds, true)
         + Heard(others.subnets.clouds, true) <= r.w.log
  {
    hide PatchFinalizer, LookupCall, RunStages, Reconcile, Heard;
    PreparedWorld(w);
    var w3 := AfterLookups(w);
    ThreeHeard(w3, others.networks, others.firewalls, others.subnets);
    var w4 := RunStages(w3, BuildOrder(others)).w;
    ReconcileAppends(ConfigOf(name, spec, facts), w4, order);
    var log := ReconcileNormal(name, spec, w, facts, order, others).w.log;
    assert w4.log <= log && w3.log == log[..|w.log| + 3];
    assert w4.log == w3.log + Heard(others.networks.clouds, true) + Heard(others.firewalls.clouds, true)
                     + Heard(others.subnets.clouds, true);
  }

  /** A service that fails fails the round, wherever it stands in the order. */
  lemma FailingServiceFails(name: string, spec: ClusterSpec, w: World, facts: Facts, order: seq<string>,
                            others: Others)
    requires !AllOk(others)
    ensures ReconcileNormal(name, spec, w, facts, order, others).Failed?
    ensures ReconcileDelete(name, spec, w, facts, order, others).Failed?
  {
    hide ReconcileNormal, ReconcileDelete;
    if ReconcileNormal(name, spec, w, facts, order, others).Done? { NormalCalls(name, spec, w, facts, order, others); }
    DeletionCalls(name, spec, w, facts, order, others);
  }

  lemma NormalKeepsFinalizer(name: string, spec: ClusterSpec, w: World, facts: Facts, order: seq<string>,
                             others: Others)
    requires w.finalizer
    ensures ReconcileNormal(name, spec, w, facts, order, others).w.finalizer
  {
    hide RunStages, Reconcile;
    var r3 := LookupCall(LookupCall(PatchFinalizer(w, true).w).w);
    ThreeHeard(r3.w, others.networks, others.firewalls, others.subnets);
    var w4 := RunStages(r3.w, BuildOrder(others)).w;
    ReconcileArmed({}, ConfigOf(name, spec, facts), w4, order);
  }

  lemma DeletionKeepsFinalizer(name: string, spec: ClusterSpec, w: World, facts: Facts, order: seq<string>,
                               others: Others)
    ensures ReconcileDelete(name, spec, w, facts, order, others).w.finalizer == w.finalizer
  {
    hide RunStages, DeleteAll;
    DeleteAllFades({}, ConfigOf(name, spec, facts), w, order);
    ThreeHeard(DeleteAll(ConfigOf(name, spec, facts), w, order).0, others.subnets, others.firewalls, others.networks);
  }

  /**
    A stored finalizer goes in exactly those rounds that delete, in which the load balancers and every other service
    succeed, and whose closing write of the object takes effect.
   */
  lemma FinalizerGoesIff(name: string, spec: ClusterSpec, w: World, input: Input)
    requires w.finalizer
    ensures var w0 := w.(net := Reload(w.net));
      !ControllerRound(name, spec, w, input).finalizer <==>
        && input.Deletion? && AllOk(input.others)
        && DeleteAll(ConfigOf(name, spec, input.facts), w0, input.order).1
        && !Next(ReconcileDelete(name, spec, w0, input.facts, input.order, input.others).w).fault.FailsBefore?
  {
    hide ReconcileNormal, ReconcileDelete, DeleteAll;
    var w0 := w.(net := Reload(w.net));
    match input
    case Skipped =>
    case Normal(facts, zones, order, others) => NormalKeepsFinalizer(name, spec, w0, facts, order, others);
    case Deletion(facts, order, others) =>
      DeletionCalls(name, spec, w0, facts, order, others);
      DeletionKeepsFinalizer(name, spec, w0, facts, order, others);
  }

  /** Move `i` of the history is a Deletion round in which the load balancers and every other service succeeded. */
  ghost predicate DeletesAllAt(name: string, s: StoredCluster, moves: seq<Move>, i: int) {
    && 0 <= i < |moves| && moves[i].Work? && moves[i].input.Deletion? && AllOk(moves[i].input.others)
    && var before, input := History(name, s, moves[..i]), moves[i].input;
      DeleteAll(ConfigOf(name, before.spec, input.facts), before.w.(net := Reload(before.w.net)), input.order).1
  }

  /** Along every history the finalizer, once stored, goes only by a Deletion round in which every service succeeded. */
  lemma {:induction false} FinalizerNeedsEveryService(name: string, s: StoredCluster, moves: seq<Move>)
    requires s.w.finalizer && !History(name, s, moves).w.finalizer
    ensures exists i :: DeletesAllAt(name, s, moves, i)
    decreases |moves|
  {
    hide ControllerRound, ReadyAfter, DeleteAll, AllOk;
    if moves != [] {
      var n := |moves| - 1;
      var rest := moves[..n];
      var before := History(name, s, rest);
      if before.w.finalizer {
        FinalizerGoesIff(name, before.spec, before.w, moves[n].input);
        assert DeletesAllAt(name, s, moves, n);
      } else {
        FinalizerNeedsEveryService(name, s, rest);
        var i :| DeletesAllAt(name, s, rest, i);
        assert rest[..i] == moves[..i];
        assert DeletesAllAt(name, s, moves, i);
      }
    }
  }

  /** Along every history a cluster becomes ready only by a Normal round in which every service succeeded. */
  lemma ReadyNeedsEveryService(name: string, s: StoredCluster, moves: seq<Move>)
    requires History(name, s, moves).ready && !s.ready
    ensures exists i :: SucceedsAt(name, s, moves, i) && moves[i].input.Normal? && AllOk(moves[i].input.others)
  {
    hide History, ReconcileNormal;
    ReadyNeedsSuccess(name, s, moves);
    var i :| SucceedsAt(name, s, moves, i);
    var before, input := History(name, s, moves[..i]), moves[i].input;
    NormalCalls(name, before.spec, before.w.(net := Reload(before.w.net)), input.facts, input.order, input.others);
  }

  // ----- success -----

  lemma {:induction false} StagesFaultless(w: World, stages: seq<Stage>)
    requires Faults(w.oracle) == 0
    ensures Faults(RunStages(w, stages).w.oracle) == 0
    decreases |stages|
  {
    hide RunStage, Faults;
    if stages != [] {
      StageFaultless(w, stages[0]);
      if RunStage(w, stages[0]).Done? { StagesFaultless(RunStage(w, stages[0]).w, stages[1..]); }
    }
  }

  lemma {:induction false} StageFaultless(w: World, s: Stage)
    requires Faults(w.oracle) == 0
    ensures Faults(RunStage(w, s).w.oracle) == 0
    decreases |s.clouds|
  {
    hide Faults;
    if s.clouds != [] {
      FaultsStep(w, Elsewhere, s.clouds[0]);
      StageFaultless(Called(w, Elsewhere, s.clouds[0]), s.(clouds := s.clouds[1..]));
    }
  }

  lemma PreparesFaultless(w: World)
    requires Faults(w.oracle) == 0
    ensures PatchFinalizer(w, true).Done? && LookupCall(PatchFinalizer(w, true).w).Done?
    ensures LookupCall(LookupCall(PatchFinalizer(w, true).w).w).Done? && Faults(AfterLookups(w).oracle) == 0
  {
    hide Faults;
    FaultsStep(w, Patch, w.cloud);
    var w1 := PatchFinalizer(w, true).w;
    FaultsStep(w1, Lookup, w1.cloud);
    var w2 := LookupCall(w1).w;
    FaultsStep(w2, Lookup, w2.cloud);
  }

  lemma ClosesFaultless(before: World, after: World, ok: bool, finalizer: bool)
    requires Faults(after.oracle) == 0
    ensures CloseWith(before, after, ok, finalizer).1 == ok
  {
    hide Faults;
    FaultsStep(after, Patch, after.cloud);
    var w1 := Called(after, Patch, after.cloud);
    FaultsStep(w1, Patch, w1.cloud);
  }

  /** A subnet for the internal address is there once the other services are done, if one is needed. */
  ghost predicate HasSubnet(cfg: Config, w: World, others: Others) {
    AsksInternal(cfg) ==> SubnetReady(cfg, RunStages(AfterLookups(w), BuildOrder(others)).w.cloud, cfg.subnets)
  }

  lemma NormalSucceedsIff(name: string, spec: ClusterSpec, base: Cloud, zs: set<string>, w: World, input: Input)
    requires input.Normal? && Distinct(input.order) && (forall z :: z in input.order ==> z in zs)
    requires var cfg := ConfigOf(name, spec, input.facts); Clean(cfg, base) && IntactRun(cfg, base, zs, w)
    requires PossibleStages(AfterLookups(w), BuildOrder(input.others)) && OthersSound(input.others)
    requires Faults(w.oracle) == 0
    ensures var r := ReconcileNormal(name, spec, w, input.facts, input.order, input.others);
      && Faults(r.w.oracle) == 0
      && (r.Done? <==> AllOk(input.others) && HasSubnet(ConfigOf(name, spec, input.facts), w, input.others))
  {
    hide Clean, IntactRun, RunStages, Reconcile, PossibleStages, PatchFinalizer, LookupCall, Faults,
      SubnetReady, Heard, ConfigOf;
    var cfg := ConfigOf(name, spec, input.facts);
    PreparesFaultless(w);
    PatchIntact(cfg, base, zs, w, true);
    PatchIntact(cfg, base, zs, PatchFinalizer(w, true).w, true);
    PatchIntact(cfg, base, zs, LookupCall(PatchFinalizer(w, true).w).w, true);
    var w3 := AfterLookups(w);
    StagesFaultless(w3, BuildOrder(input.others));
    ThreeHeard(w3, input.others.networks, input.others.firewalls, input.others.subnets);
    StagesIntact(cfg, base, zs, w3, BuildOrder(input.others));
    ReconcileIntact(cfg, base, zs, RunStages(w3, BuildOrder(input.others)).w, input.order);
  }

  lemma DeletionSucceedsIff(name: string, spec: ClusterSpec, base: Cloud, zs: set<string>, w: World, input: Input)
    requires input.Deletion? && Faults(w.oracle) == 0
    requires var cfg := ConfigOf(name, spec, input.facts); Clean(cfg, base) && IntactRun(cfg, base, zs, w)
    ensures var r := ReconcileDelete(name, spec, w, input.facts, input.order, input.others);
      Faults(r.w.oracle) == 0 && (r.Done? <==> AllOk(input.others))
  {
    hide Clean, IntactRun, RunStages, DeleteAll, Faults, Heard, ConfigOf, Wanted;
    var cfg := ConfigOf(name, spec, input.facts);
    DeleteIntact(cfg, base, zs, w, input.order);
    var w1 := DeleteAll(cfg, w, input.order).0;
    StagesFaultless(w1, TeardownOrder(input.others));
    ThreeHeard(w1, input.others.subnets, input.others.firewalls, input.others.networks);
  }

  /**
    After any history, a round whose own calls meet no fault returns nil exactly if every other service succeeds and,
    to build an internal balancer, a subnet for its address is there.
   */
  lemma FaultlessRoundReturnsIff(name: string, s: StoredCluster, moves: seq<Move>, facts: Facts, last: Input)
    requires Beginning(name, s, facts) && !last.Skipped?
    requires PossibleHistory(name, s, moves + [Work(last)]) && OthersKeep(moves + [Work(last)])
    requires Faults(History(name, s, moves).w.oracle) == 0
    ensures var s0 := History(name, s, moves);
      RoundReturned(name, s0, last) <==>
        && AllOk(last.others)
        && (last.Normal? ==>
              HasSubnet(ConfigOf(name, s0.spec, last.facts), s0.w.(net := Reload(s0.w.net)), last.others))
  {
    hide History, PossibleHistory, OthersKeep, ReconcileNormal, ReconcileDelete, Clean, IntactRun, PossibleStages,
      OthersSound, Kin, ConfigOf, Faults, HasSubnet, AllOk;
    var cfg, base := ConfigOf(name, s.spec, facts), s.w.cloud;
    var zs := ZonesIn(moves) + (if last.Normal? then set z | z in last.order else {});
    AppendHistory(name, s, moves, last);
    BeginningIsIntact(name, s, facts, zs);
    HistoryIntact(name, s, moves, facts, base, zs);
    var s0 := History(name, s, moves);
    var cfg', w0 := ConfigOf(name, s0.spec, last.facts), s0.w.(net := Reload(s0.w.net));
    IdentityIsKin(name, s.spec, s0.spec, facts, last.facts);
    KinClean(cfg, cfg', base);
    KinIntactRun(cfg, cfg', base, zs, s0.w);
    ReloadIntact(cfg', base, zs, s0.w);
    match last
    case Normal(facts', zones, order, others) =>
      NormalSucceedsIff(name, s0.spec, base, zs, w0, last);
      var r := ReconcileNormal(name, s0.spec, w0, facts', order, others);
      ClosesFaultless(w0, r.w, r.Done?, true);
    case Deletion(facts', order, others) =>
      DeletionSucceedsIff(name, s0.spec, base, zs, w0, last);
      var r := ReconcileDelete(name, s0.spec, w0, facts', order, others);
      ClosesFaultless(w0, r.w, r.Done?, s0.w.finalizer && !r.Done?);
  }

  // ----- what is stored -----

  /**
    A closing write that is lost loses exactly what it carries, be it the finalizer and the host or the status; neither
    touches the cloud, and the round returns nil exactly if it succeeded and both writes did.
   */
  lemma LostWrites(before: World, after: World, ok: bool, finalizer: bool)
    ensures var (w, returned) := CloseWith(before, after, ok, finalizer);
      var spec := Next(after).fault; var status := Next(Called(after, Patch, after.cloud)).fault;
      && w.cloud == after.cloud && (returned <==> ok && spec.Works? && status.Works?)
      && (spec.FailsBefore? ==> w.host == before.host && w.finalizer == after.finalizer)
      && (!spec.FailsBefore? ==> w.host == after.host && w.finalizer == finalizer)
      && w.net == (if status.FailsBefore? then before.net else after.net)
      && |w.log| == |after.log| + 2 && after.log <= w.log
      && w.log[|after.log|] == w.log[|after.log| + 1] == Event(Patch, after.cloud, w.finalizer)
  {
  }

  /** A round that returns nil makes the cluster ready exactly if it is there with a host, and stores that host. */
  lemma ReturnedIsReady(name: string, s: StoredCluster, input: Input)
    requires input.Normal? && RoundReturned(name, s, input)
    ensures var host := ControllerRound(name, s.spec, s.w, input).host;
      && ReadyAfter(name, s.spec, s.w, s.ready, input) == (s.ready || host != "")
      && host == ReconcileNormal(name, s.spec, s.w.(net := Reload(s.w.net)), input.facts, input.order, input.others)
                 .w.host
  {
    hide ReconcileNormal;
  }

  /** Ready is never taken back. */
  lemma {:induction false} ReadyForEver(name: string, s: StoredCluster, moves: seq<Move>)
    requires s.ready
    ensures History(name, s, moves).ready
    decreases |moves|
  {
    hide ControllerRound, Succeeds;
    if moves != [] { ReadyForEver(name, s, moves[..|moves| - 1]); }
  }

  // ----- what the spec decides -----

  /** The chains that the spec's type asks for are there under the cluster's name, and the host is their address. */
  ghost predicate HasChains(name: string, spec: ClusterSpec, w: World) {
    var lb := spec.loadBalancer;
    var regional := if lb.internal.Some? && lb.internal.value.name.Some? then lb.internal.value.name.value
                    else "api-internal";
    && (lb.lbType in {None, Some(External), Some(InternalExternal)} ==>
          && (forall kind :: kind in {HealthChecks, BackendServices, TargetTcpProxies, Addresses, ForwardingRules} ==>
                Key(kind, Global, name + "-apiserver") in w.cloud)
          && LoadBalancerContents.HostAt(w, Key(Addresses, Global, name + "-apiserver")))
    && (lb.lbType in {Some(Internal), Some(InternalExternal)} ==>
          forall kind :: kind in {HealthChecks, BackendServices, Addresses, ForwardingRules} ==>
            Key(kind, Regional(spec.region), name + "-" + regional) in w.cloud)
    && (lb.lbType == Some(Internal) ==>
          LoadBalancerContents.HostAt(w, Key(Addresses, Regional(spec.region), name + "-" + regional)))
  }

  lemma BuiltHasChains(name: string, spec: ClusterSpec, facts: Facts, w: World)
    requires Built(ConfigOf(name, spec, facts), w)
    ensures HasChains(name, spec, w)
  {
    var cfg := ConfigOf(name, spec, facts);
    LoadBalancerContents.WantedByType(cfg);
    LoadBalancerContents.SameKeys(cfg, Addresses);
    assert cfg.name + "-" + "api-internal" == cfg.name + "-api-internal";
  }

  /**
    In any history, a cluster becomes ready only by a round in which every service succeeded and that left the chains
    of its load balancer type in place under its own name, with the host at their address.
   */
  lemma ReadyHasChains(name: string, s: StoredCluster, moves: seq<Move>, facts: Facts)
    requires Beginning(name, s, facts) && PossibleHistory(name, s, moves) && OthersKeep(moves)
    requires History(name, s, moves).ready && !s.ready
    ensures exists i ::
              && SucceedsAt(name, s, moves, i) && moves[i].input.Normal? && AllOk(moves[i].input.others)
              && HasChains(name, s.spec, AtClose(name, s, moves, i)) && AtClose(name, s, moves, i).host != ""
  {
    hide History, PossibleHistory, Built, ReconcileNormal, OthersKeep, Beginning, ConfigOf, HasChains;
    ReadyNeedsEveryService(name, s, moves);
    var i :| SucceedsAt(name, s, moves, i) && moves[i].input.Normal? && AllOk(moves[i].input.others);
    SuccessIsBuilt(name, s, moves, facts, i);
    BuiltHasChains(name, s.spec, facts, AtClose(name, s, moves, i));
  }

  lemma {:induction false} StageLeaves(w: World, s: Stage, k: Key)
    requires LeavesBalancer(w.cloud, s) && !k.kind.Subnetworks?
    ensures var c := RunStage(w, s).w.cloud; (k in c <==> k in w.cloud) && (k in c ==> c[k] == w.cloud[k])
  {
    StageHeard(w, s);
  }

  lemma {:induction false} StagesLeave(w: World, stages: seq<Stage>, k: Key)
    requires PossibleStages(w, stages) && !k.kind.Subnetworks?
    ensures var c := RunStages(w, stages).w.cloud; (k in c <==> k in w.cloud) && (k in c ==> c[k] == w.cloud[k])
    decreases |stages|
  {
    hide RunStage, LeavesBalancer;
    if stages != [] {
      StageLeaves(w, stages[0], k);
      if RunStage(w, stages[0]).Done? { StagesLeave(RunStage(w, stages[0]).w, stages[1..], k); }
    }
  }

  /** A resource as the spec and the round's facts want it: group name and port, network and serving ports. */
  ghost predicate MadeFor(name: string, spec: ClusterSpec, facts: Facts, k: Key, r: Resource) {
    var lb, serving := spec.loadBalancer, if facts.apiServerPort == 0 then 443 else facts.apiServerPort;
    && (k.kind.InstanceGroups? ==>
          && r == InstanceGroup(if spec.backendPort.Some? then spec.backendPort.value else 6443) && k.scope.Zonal?
          && var tag := if lb.groupTag.Some? then lb.groupTag.value else "apiserver";
            k.name == name + "-" + tag + "-" + k.scope.zone)
    && (k.kind.BackendServices? ==>
          r.BackendService? && r.network == if k.scope.Global? then None else facts.network)
    && (k.kind.ForwardingRules? ==>
          && r.ForwardingRule?
          && r.ports == if k.scope.Global? then PortRange(serving, serving) else PortList([serving, 22623]))
  }

  /** What a Normal round makes anew is as the spec wants it, whatever fails. */
  lemma NormalMakes(name: string, spec: ClusterSpec, w: World, input: Input, k: Key)
    requires input.Normal? && PossibleStages(AfterLookups(w), BuildOrder(input.others)) && !k.kind.Subnetworks?
    ensures var c := ReconcileNormal(name, spec, w, input.facts, input.order, input.others).w.cloud;
      k in c && k !in w.cloud ==> MadeFor(name, spec, input.facts, k, c[k])
  {
    hide RunStages, Reconcile, PossibleStages;
    var cfg, w3 := ConfigOf(name, spec, input.facts), AfterLookups(w);
    StagesLeave(w3, BuildOrder(input.others), k);
    LoadBalancerContents.ReconcileAdds(cfg, RunStages(w3, BuildOrder(input.others)).w, input.order);
  }
}
