/**
  What every call of a GCPCluster round keeps of the load balancer, with the other services at work in between: the
  invariant of the load balancer service, relative to a cloud whose subnets may change.
 */
module GCPClusterInvariant {
  import opened CloudApi
  import opened LoadBalancerSpec
  import opened LoadBalancerInvariant
  import opened LoadBalancerSteps
  import opened LoadBalancerChains
  import opened LoadBalancerDelete
  import opened LoadBalancerRuns
  import opened LoadBalancerPrefix
  import opened GCPClusterAdmission
  import opened GCPClusterController

  // ----- the invariant -----

  /** Everything but this cluster's balancer and the subnets is as it was in `base`. */
  ghost predicate Outside(cfg: Config, base: Cloud, c: Cloud) {
    forall k: Key :: !Own(cfg, k) && !k.kind.Subnetworks? ==> (k in c <==> k in base) && (k in c ==> c[k] == base[k])
  }

  ghost predicate SubnetsTyped(c: Cloud) { forall k: Key :: k in c && k.kind.Subnetworks? ==> c[k].Subnetwork? }

  /** Links resolve, this cluster's resources fit, and nothing outside has changed. */
  ghost predicate Intact(cfg: Config, base: Cloud, zs: set<string>, c: Cloud) {
    && Integrity(c) && SubnetsTyped(c) && Outside(cfg, base, c)
    && (forall k :: k in c && Own(cfg, k) ==> Fits(cfg, zs, k, c[k]))
  }

  /** Intact now and after every call so far. */
  ghost predicate IntactRun(cfg: Config, base: Cloud, zs: set<string>, w: World) {
    Intact(cfg, base, zs, w.cloud) && forall i :: 0 <= i < |w.log| ==> Intact(cfg, base, zs, w.log[i].cloud)
  }

  /** The part of a cloud that is not this cluster's balancer. */
  ghost function Foreign(cfg: Config, c: Cloud): Cloud { map k | k in c && !Own(cfg, k) :: c[k] }

  lemma OwnIsNoSubnet(cfg: Config, k: Key)
    requires Own(cfg, k)
    ensures !k.kind.Subnetworks?
  {
  }

  /** A service call may take the foreign part of an intact cloud as its starting cloud. */
  lemma IntactIsSound(cfg: Config, base: Cloud, zs: set<string>, c: Cloud)
    requires Clean(cfg, base) && Intact(cfg, base, zs, c)
    ensures Clean(cfg, Foreign(cfg, c)) && Sound(cfg, Foreign(cfg, c), zs, c)
  {
    hide Own, Fits;
    var foreign := Foreign(cfg, c);
    forall k, l | k in foreign && l in References(foreign[k]) ensures l in foreign {
      assert c[k] == foreign[k];
      if !k.kind.Subnetworks? {
        assert base[k] == c[k];
        assert l in base;
      }
    }
  }

  lemma SoundIsIntact(cfg: Config, base: Cloud, zs: set<string>, c: Cloud, c': Cloud)
    requires Intact(cfg, base, zs, c) && Sound(cfg, Foreign(cfg, c), zs, c')
    ensures Intact(cfg, base, zs, c')
  {
    hide Own, Fits, References;
    forall k: Key | k in c' && k.kind.Subnetworks? ensures c'[k].Subnetwork? {
      if Own(cfg, k) { OwnIsNoSubnet(cfg, k); }
    }
  }

  lemma KinIntactRun(cfg: Config, cfg': Config, base: Cloud, zs: set<string>, w: World)
    requires Kin(cfg, cfg') && IntactRun(cfg, base, zs, w)
    ensures IntactRun(cfg', base, zs, w)
  {
    hide Fits, Own, Integrity, SubnetsTyped;
    KinKeys(cfg, cfg');
    forall c, k | Intact(cfg, base, zs, c) && k in c && Own(cfg, k) ensures Fits(cfg', zs, k, c[k]) {
      KinFits(cfg, cfg', zs, k, c[k]);
    }
  }

  // ----- single calls -----

  lemma CalledIntact(cfg: Config, base: Cloud, zs: set<string>, w: World, request: Request, c: Cloud)
    requires IntactRun(cfg, base, zs, w) && Intact(cfg, base, zs, c)
    ensures IntactRun(cfg, base, zs, Called(w, request, c))
  {
  }

  /** The other services keep links intact: the cloud refuses to delete a subnet in use. */
  ghost predicate StageKeeps(s: Stage) { forall c :: c in s.clouds ==> Integrity(c) && SubnetsTyped(c) }

  lemma StageCloudIntact(cfg: Config, base: Cloud, zs: set<string>, c: Cloud, s: Stage, i: nat)
    requires Intact(cfg, base, zs, c) && LeavesBalancer(c, s) && StageKeeps(s) && i < |s.clouds|
    ensures Intact(cfg, base, zs, s.clouds[i])
  {
    hide Fits, Own, Integrity, SubnetsTyped;
    var c' := s.clouds[i];
    forall k | k in c' && Own(cfg, k) ensures Fits(cfg, zs, k, c'[k]) {
      OwnIsNoSubnet(cfg, k);
      assert c'[k] == c[k];
    }
  }

  /** A stage leaves status, host and every balancer resource alone. */
  ghost predicate Apart(w: World, w': World) {
    && w'.net == w.net && w'.host == w.host && w'.finalizer == w.finalizer
    && (forall k: Key :: !k.kind.Subnetworks? ==>
          (k in w'.cloud <==> k in w.cloud) && (k in w.cloud ==> w'.cloud[k] == w.cloud[k]))
  }

  function Tail(s: Stage): Stage
    requires s.clouds != []
  {
    s.(clouds := s.clouds[1..])
  }

  lemma StageTail(w: World, s: Stage)
    requires s.clouds != [] && LeavesBalancer(w.cloud, s) && StageKeeps(s)
    ensures LeavesBalancer(s.clouds[0], Tail(s)) && StageKeeps(Tail(s)) && Apart(w, Called(w, Elsewhere, s.clouds[0]))
  {
    hide Integrity, SubnetsTyped;
    var c, rest := s.clouds[0], Tail(s);
    assert forall i :: 0 <= i < |rest.clouds| ==> rest.clouds[i] == s.clouds[i + 1];
  }

  lemma ApartStep(w: World, w1: World, w2: World)
    requires Apart(w, w1) && Apart(w1, w2)
    ensures Apart(w, w2)
  {
  }

  lemma {:induction false} StageIntact(cfg: Config, base: Cloud, zs: set<string>, w: World, s: Stage)
    requires IntactRun(cfg, base, zs, w) && LeavesBalancer(w.cloud, s) && StageKeeps(s)
    ensures IntactRun(cfg, base, zs, RunStage(w, s).w) && Apart(w, RunStage(w, s).w)
    decreases |s.clouds|
  {
    hide Intact, LeavesBalancer, StageKeeps;
    if s.clouds != [] {
      hide Apart;
      StageCloudIntact(cfg, base, zs, w.cloud, s, 0);
      CalledIntact(cfg, base, zs, w, Elsewhere, s.clouds[0]);
      StageTail(w, s);
      var w1 := Called(w, Elsewhere, s.clouds[0]);
      StageIntact(cfg, base, zs, w1, Tail(s));
      ApartStep(w, w1, RunStage(w, s).w);
    }
  }

  ghost predicate StagesKeep(stages: seq<Stage>) { forall s :: s in stages ==> StageKeeps(s) }

  /** Every service beside the load balancers keeps links intact. */
  ghost predicate OthersSound(others: Others) {
    StageKeeps(others.networks) && StageKeeps(others.firewalls) && StageKeeps(others.subnets)
  }

  lemma {:induction false} StagesIntact(cfg: Config, base: Cloud, zs: set<string>, w: World, stages: seq<Stage>)
    requires IntactRun(cfg, base, zs, w) && PossibleStages(w, stages) && StagesKeep(stages)
    ensures IntactRun(cfg, base, zs, RunStages(w, stages).w) && Apart(w, RunStages(w, stages).w)
    decreases |stages|
  {
    hide IntactRun, RunStage, StageKeeps, LeavesBalancer;
    if stages != [] {
      StageIntact(cfg, base, zs, w, stages[0]);
      if RunStage(w, stages[0]).Done? { StagesIntact(cfg, base, zs, RunStage(w, stages[0]).w, stages[1..]); }
    }
  }

  // ----- the service -----

  lemma BareRun(cfg: Config, base: Cloud, zs: set<string>, w: World)
    requires Clean(cfg, base) && IntactRun(cfg, base, zs, w)
    ensures var bare, foreign := w.(log := []), Foreign(cfg, w.cloud);
      && Clean(cfg, foreign) && SoundRun(cfg, foreign, zs, bare) && Sound(cfg, foreign, zs, w.cloud)
      && Prefixed(w.log, bare) == w
  {
    hide Intact, Clean, Sound;
    IntactIsSound(cfg, base, zs, w.cloud);
    assert w.log + [] == w.log;
  }

  lemma RejoinedRun(cfg: Config, base: Cloud, zs: set<string>, w: World, w': World)
    requires IntactRun(cfg, base, zs, w) && SoundRun(cfg, Foreign(cfg, w.cloud), zs, w')
    ensures IntactRun(cfg, base, zs, Prefixed(w.log, w'))
  {
    hide Intact, Sound;
    SoundIsIntact(cfg, base, zs, w.cloud, w'.cloud);
    forall i | 0 <= i < |w'.log| ensures Intact(cfg, base, zs, w'.log[i].cloud) {
      SoundIsIntact(cfg, base, zs, w.cloud, w'.log[i].cloud);
    }
  }

  lemma ReconcileIntact(cfg: Config, base: Cloud, zs: set<string>, w: World, zones: seq<string>)
    requires Clean(cfg, base) && IntactRun(cfg, base, zs, w) && Distinct(zones) && (forall z :: z in zones ==> z in zs)
    ensures var r := Reconcile(cfg, w, zones);
      && IntactRun(cfg, base, zs, r.w) && r.w.finalizer == w.finalizer
      && (r.Done? ==> Settled(cfg, zones, r.w))
      && (Faults(w.oracle) == 0 ==>
            && Faults(r.w.oracle) == 0
            && (r.Done? <==> (WantsInternal(cfg) ==> SubnetReady(cfg, w.cloud, cfg.subnets))))
  {
    hide Clean, IntactRun, SoundRun, Sound, Reconcile, SubnetReady, Faults, ExternalSettled, InternalSettled;
    BareRun(cfg, base, zs, w);
    var bare := w.(log := []);
    SubnetReadyKeeps(cfg, Foreign(cfg, w.cloud), zs, w.cloud, cfg.subnets);
    ReconcileKeeps(cfg, Foreign(cfg, w.cloud), zs, bare, zones);
    PrefixReconcile(w.log, cfg, bare, zones);
    var r := Reconcile(cfg, bare, zones);
    RejoinedRun(cfg, base, zs, w, r.w);
    if r.Done? { PrefixSettled(cfg, zones, w.log, r.w); }
  }

  lemma PrefixSettled(cfg: Config, zones: seq<string>, l: seq<Event>, w: World)
    ensures Settled(cfg, zones, Prefixed(l, w)) == Settled(cfg, zones, w)
  {
  }

  lemma DeleteIntact(cfg: Config, base: Cloud, zs: set<string>, w: World, order: seq<string>)
    requires Clean(cfg, base) && IntactRun(cfg, base, zs, w)
    ensures var (w', ok) := DeleteAll(cfg, w, order);
      && IntactRun(cfg, base, zs, w') && Shrunk(w, w')
      && (ok ==> forall k :: k in Wanted(cfg) ==> k !in w'.cloud)
      && (ok ==> forall z :: z in order ==> GroupKey(cfg, z) !in w'.cloud)
      && (Faults(w.oracle) == 0 ==> ok && Faults(w'.oracle) == 0)
  {
    hide Clean, IntactRun, SoundRun, DeleteAll, Wanted, Faults;
    BareRun(cfg, base, zs, w);
    var bare := w.(log := []);
    DeleteAllSpends(cfg, Foreign(cfg, w.cloud), zs, bare, order);
    DeleteAllKeeps(cfg, Foreign(cfg, w.cloud), zs, bare, order);
    PrefixDeleteAll(w.log, cfg, bare, order);
    RejoinedRun(cfg, base, zs, w, DeleteAll(cfg, bare, order).0);
  }

  // ----- rounds of the controller -----

  lemma PatchIntact(cfg: Config, base: Cloud, zs: set<string>, w: World, finalizer: bool)
    requires IntactRun(cfg, base, zs, w)
    ensures IntactRun(cfg, base, zs, PatchFinalizer(w, finalizer).w) && IntactRun(cfg, base, zs, LookupCall(w).w)
    ensures LookupCall(w).w.net == w.net && LookupCall(w).w.cloud == w.cloud
    ensures PatchFinalizer(w, finalizer).w.net == w.net && PatchFinalizer(w, finalizer).w.cloud == w.cloud
  {
    hide Intact;
    var w1 := w.(finalizer := finalizer);
    CalledIntact(cfg, base, zs, w, Patch, w.cloud);
    CalledIntact(cfg, base, zs, w1, Patch, w.cloud);
    CalledIntact(cfg, base, zs, w, Lookup, w.cloud);
  }

  lemma CloseIntact(cfg: Config, base: Cloud, zs: set<string>, before: World, after: World, ok: bool, finalizer: bool)
    requires IntactRun(cfg, base, zs, after)
    ensures IntactRun(cfg, base, zs, CloseScope(before, after, ok, finalizer))
  {
    hide Intact;
    var spec := Next(after).fault;
    var w := if spec.FailsBefore? then after.(host := before.host) else after.(finalizer := finalizer);
    CalledIntact(cfg, base, zs, w, Patch, after.cloud);
    var w1 := Called(w, Patch, after.cloud);
    CalledIntact(cfg, base, zs, if Next(w1).fault.FailsBefore? then w1.(net := before.net) else w1, Patch, w1.cloud);
  }

  lemma NormalIntact(name: string, spec: ClusterSpec, base: Cloud, zs: set<string>, w: World, input: Input)
    requires input.Normal? && Distinct(input.order) && (forall z :: z in input.order ==> z in zs)
    requires Clean(ConfigOf(name, spec, input.facts), base)
    requires IntactRun(ConfigOf(name, spec, input.facts), base, zs, w)
    requires PossibleStages(AfterLookups(w), BuildOrder(input.others)) && OthersSound(input.others)
    ensures var cfg := ConfigOf(name, spec, input.facts);
      var r := ReconcileNormal(name, spec, w, input.facts, input.order, input.others);
      && IntactRun(cfg, base, zs, r.w)
      && (r.Done? ==> Settled(cfg, input.order, r.w))
  {
    hide Clean, IntactRun, RunStages, Reconcile, PossibleStages, PatchFinalizer, LookupCall, Settled;
    var cfg := ConfigOf(name, spec, input.facts);
    PatchIntact(cfg, base, zs, w, true);
    var r1 := PatchFinalizer(w, true);
    if r1.Failed? { return; }
    PatchIntact(cfg, base, zs, r1.w, true);
    var r2 := LookupCall(r1.w);
    if r2.Failed? { return; }
    PatchIntact(cfg, base, zs, r2.w, true);
    var r3 := LookupCall(r2.w);
    if r3.Failed? { return; }
    StagesIntact(cfg, base, zs, r3.w, BuildOrder(input.others));
    var r4 := RunStages(r3.w, BuildOrder(input.others));
    if r4.Failed? { return; }
    ReconcileIntact(cfg, base, zs, r4.w, input.order);
  }

  /** Every group of the cluster is recorded, and nothing of the balancer is new. */
  ghost predicate Declining(cfg: Config, w: World, w': World) {
    && (Recorded(cfg, w) ==> Recorded(cfg, w'))
    && (forall k: Key :: !k.kind.Subnetworks? && k in w'.cloud ==> k in w.cloud)
  }

  lemma DeletionIntact(name: string, spec: ClusterSpec, base: Cloud, zs: set<string>, w: World, input: Input)
    requires input.Deletion? && RangeOrder(w.net, input.order)
    requires Clean(ConfigOf(name, spec, input.facts), base)
    requires IntactRun(ConfigOf(name, spec, input.facts), base, zs, w)
    requires PossibleStages(DeleteAll(ConfigOf(name, spec, input.facts), w, input.order).0, TeardownOrder(input.others))
    requires OthersSound(input.others)
    ensures var cfg := ConfigOf(name, spec, input.facts);
      var r := ReconcileDelete(name, spec, w, input.facts, input.order, input.others);
      && IntactRun(cfg, base, zs, r.w) && Declining(cfg, w, r.w)
      && (r.Done? && Recorded(cfg, w) ==> forall k :: k in r.w.cloud ==> !Own(cfg, k))
  {
    hide Clean, IntactRun, RunStages, DeleteAll, PossibleStages, Wanted;
    var cfg := ConfigOf(name, spec, input.facts);
    DeleteIntact(cfg, base, zs, w, input.order);
    DeleteAllRecords(cfg, w, input.order);
    var (w1, ok) := DeleteAll(cfg, w, input.order);
    if ok {
      StagesIntact(cfg, base, zs, w1, TeardownOrder(input.others));
      var r := RunStages(w1, TeardownOrder(input.others));
      forall k | k in r.w.cloud && Recorded(cfg, w) ensures !Own(cfg, k) {
        if Own(cfg, k) { OwnIsNoSubnet(cfg, k); }
      }
    }
  }

  lemma ReloadIntact(cfg: Config, base: Cloud, zs: set<string>, w: World)
    requires IntactRun(cfg, base, zs, w)
    ensures IntactRun(cfg, base, zs, w.(net := Reload(w.net)))
  {
  }

  lemma RoundIntact(name: string, spec: ClusterSpec, base: Cloud, zs: set<string>, w: World, input: Input)
    requires !input.Skipped? && PossibleInput(name, spec, w, input) && OthersSound(input.others)
    requires input.Normal? ==> forall z :: z in input.order ==> z in zs
    requires Clean(ConfigOf(name, spec, input.facts), base)
    requires IntactRun(ConfigOf(name, spec, input.facts), base, zs, w)
    ensures IntactRun(ConfigOf(name, spec, input.facts), base, zs, ControllerRound(name, spec, w, input))
  {
    hide Clean, IntactRun, ReconcileNormal, ReconcileDelete, PossibleStages, CloseScope;
    var cfg, w0 := ConfigOf(name, spec, input.facts), w.(net := Reload(w.net));
    ReloadIntact(cfg, base, zs, w);
    match input
    case Normal(facts, zones, order, others) =>
      NormalIntact(name, spec, base, zs, w0, input);
      var r := ReconcileNormal(name, spec, w0, facts, order, others);
      CloseIntact(cfg, base, zs, w0, r.w, r.Done?, true);
    case Deletion(facts, order, others) =>
      DeletionIntact(name, spec, base, zs, w0, input);
      var r := ReconcileDelete(name, spec, w0, facts, order, others);
      CloseIntact(cfg, base, zs, w0, r.w, r.Done?, w.finalizer && !r.Done?);
  }
}
