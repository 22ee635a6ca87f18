/** The GCPCluster controller as an object that changes the stored cluster step by step. */
module GCPClusterReconciler {
  import opened CloudApi
  import opened LoadBalancerSpec
  import opened LoadBalancerRuns
  import opened LoadBalancerService
  import opened GCPClusterAdmission
  import opened GCPClusterController

  class Reconciler {
    const name: string
    var spec: ClusterSpec
    var world: World
    var ready: bool

    constructor (name: string, s: StoredCluster)
      ensures this.name == name && StoredCluster(spec, world, ready) == s
    {
      this.name, spec, world, ready := name, s.spec, s.w, s.ready;
    }

    method Update(after: ClusterSpec) returns (ok: bool)
      modifies this`spec
      ensures ok <==> Admitted(old(spec), after)
      ensures spec == if ok then after else old(spec)
    {
      var errs := ValidateUpdate(spec, after);
      ok := errs == [];
      if ok {
        spec := after;
      }
    }

    method Patch(finalizer: bool) returns (ok: bool)
      modifies this`world
      ensures world == PatchFinalizer(old(world), finalizer).w && ok == PatchFinalizer(old(world), finalizer).Done?
    {
      var fault := Next(world).fault;
      var stored := if fault.FailsBefore? then world.finalizer else finalizer;
      ok := fault.Works?;
      world := Called(world.(finalizer := stored), Request.Patch, world.cloud);
    }

    method Look() returns (ok: bool)
      modifies this`world
      ensures world == LookupCall(old(world)).w && ok == LookupCall(old(world)).Done?
    {
      ok := Next(world).fault.Works?;
      world := Called(world, Lookup, world.cloud);
    }

    method RunOthers(stages: seq<Stage>) returns (ok: bool)
      modifies this`world
      ensures world == RunStages(old(world), stages).w && ok == RunStages(old(world), stages).Done?
    {
      hide RunStage;
      for i := 0 to |stages|
        invariant RunStages(old(world), stages) == RunStages(world, stages[i..])
      {
        assert stages[i..][0] == stages[i] && stages[i..][1..] == stages[i + 1..];
        var r := RunStage(world, stages[i]);
        world := r.w;
        if r.Failed? {
          return false;
        }
      }
      ok := true;
    }

    method ReconcileCluster(facts: Facts, order: seq<string>, others: Others) returns (ok: bool)
      modifies this`world, this`ready
      ensures var r := ReconcileNormal(name, spec, old(world), facts, order, others); world == r.w && ok == r.Done?
      ensures ready <==> old(ready) || (ok && world.host != "")
    {
      hide Reconcile, RunStages;
      ok := Patch(true);
      if !ok { return; }
      ok := Look();
      if !ok { return; }
      ok := Look();
      if !ok { return; }
      ok := RunOthers([others.networks, others.firewalls, others.subnets]);
      if !ok { return; }
      var balancers := new Service(ConfigOf(name, spec, facts), world);
      var err := balancers.ReconcileLoadBalancers(order);
      world := balancers.State();
      ok := err == None;
      if ok && world.host != "" {
        ready := true;
      }
    }

    method DeleteCluster(facts: Facts, order: seq<string>, others: Others) returns (ok: bool)
      modifies this`world
      ensures var r := ReconcileDelete(name, spec, old(world), facts, order, others); world == r.w && ok == r.Done?
    {
      hide DeleteAll, RunStages;
      var balancers := new Service(ConfigOf(name, spec, facts), world);
      ok := balancers.DeleteLoadBalancers(order);
      world := balancers.State();
      if !ok { return; }
      ok := RunOthers([others.subnets, others.firewalls, others.networks]);
    }

    method ReconcileRequest(input: Input)
      modifies this`world, this`ready
      ensures world == ControllerRound(name, spec, old(world), input)
      ensures ready == ReadyAfter(name, spec, old(world), old(ready), input)
    {
      hide ReconcileNormal, ReconcileDelete;
      if input.Skipped? {
        return;
      }
      var finalizer, wasReady := world.finalizer, ready;
      world := world.(net := Reload(world.net));
      var before := world;
      var ok: bool;
      match input {
        case Normal(facts, zones, order, others) =>
          ok := ReconcileCluster(facts, order, others);
          finalizer := true;
        case Deletion(facts, order, others) =>
          ok := DeleteCluster(facts, order, others);
          finalizer := finalizer && !ok;
      }
      if Next(Called(world, Request.Patch, world.cloud)).fault.FailsBefore? {
        ready := wasReady;
      }
      world := CloseWith(before, world, ok, finalizer).0;
    }
  }
}
