/**
  The GCPCluster controller around the load balancer service: the finalizer, the ordered services,
  and every history of rounds and admitted edits.
 */
module GCPClusterController {
  import opened CloudApi
  import opened LoadBalancerSpec
  import opened LoadBalancerInvariant
  import opened LoadBalancerSteps
  import opened LoadBalancerRuns
  import opened GCPClusterAdmission

  // ----- rounds -----

  /** What another service does in one call to it: the cloud after each of its requests, and its verdict. */
  datatype Stage = Stage(clouds: seq<Cloud>, ok: bool)

  /** What the services beside the load balancers do in a round, if it comes to them. */
  datatype Others = Others(networks: Stage, firewalls: Stage, subnets: Stage)

  function BuildOrder(others: Others): seq<Stage> { [others.networks, others.firewalls, others.subnets] }

  function TeardownOrder(others: Others): seq<Stage> { [others.subnets, others.firewalls, others.networks] }

  /** The network, subnet and firewall services leave the load balancer's kinds alone. */
  ghost predicate LeavesBalancer(c: Cloud, s: Stage) {
    forall i, k: Key :: 0 <= i < |s.clouds| && !k.kind.Subnetworks? ==>
      (k in s.clouds[i] <==> k in c) && (k in c ==> s.clouds[i][k] == c[k])
  }

  function RunStage(w: World, s: Stage): Step<()>
    decreases |s.clouds|
  {
    if s.clouds == [] then (if s.ok then Done(w, ()) else Failed(w, Unavailable))
    else RunStage(Called(w, Elsewhere, s.clouds[0]), s.(clouds := s.clouds[1..]))
  }

  function RunStages(w: World, stages: seq<Stage>): Step<()>
    decreases |stages|
  {
    if stages == [] then Done(w, ())
    else
      var (w1, _) :- RunStage(w, stages[0]);
      RunStages(w1, stages[1..])
  }

  ghost predicate PossibleStages(w: World, stages: seq<Stage>)
    decreases |stages|
  {
    stages == [] ||
    (&& LeavesBalancer(w.cloud, stages[0])
     && (RunStage(w, stages[0]).Done? ==> PossibleStages(RunStage(w, stages[0]).w, stages[1..])))
  }

  /** Regions and zones are looked up by calls that can fail. */
  function LookupCall(w: World): Step<()> {
    if Next(w).fault.Works? then Done(Called(w, Lookup, w.cloud), ())
    else Failed(Called(w, Lookup, w.cloud), Unavailable)
  }

  /** Writes the finalizer list of the stored object. */
  function PatchFinalizer(w: World, wanted: bool): Step<()> {
    match Next(w).fault
    case Works => Done(Called(w.(finalizer := wanted), Patch, w.cloud), ())
    case FailsBefore => Failed(Called(w, Patch, w.cloud), Unavailable)
    case FailsAfter => Failed(Called(w.(finalizer := wanted), Patch, w.cloud), Unavailable)
  }

  /**
    What a round meets.  It is skipped if the object, its owner or the scope cannot be had, or the object is paused;
    `order` is the order in which the failure domains come out of their map.
   */
  datatype Input =
    | Skipped
    | Normal(facts: Facts, zones: seq<string>, order: seq<string>, others: Others)
    | Deletion(facts: Facts, order: seq<string>, others: Others)

  function ReconcileNormal(name: string, spec: ClusterSpec, w: World, facts: Facts, order: seq<string>,
                           others: Others)
    : Step<()>
  {
    var (w1, _) :- PatchFinalizer(w, true);
    var (w2, _) :- LookupCall(w1);
    var (w3, _) :- LookupCall(w2);
    var (w4, _) :- RunStages(w3, BuildOrder(others));
    Reconcile(ConfigOf(name, spec, facts), w4, order)
  }

  function ReconcileDelete(name: string, spec: ClusterSpec, w: World, facts: Facts, order: seq<string>,
                           others: Others)
    : Step<()>
  {
    var (w1, ok) := DeleteAll(ConfigOf(name, spec, facts), w, order);
    if !ok then Failed(w1, Unavailable) else RunStages(w1, TeardownOrder(others))
  }

  /** Closing the scope writes the finalizer with the spec, and the status; either write can fail on its own. */
  function CloseScope(before: World, after: World, ok: bool, finalizer: bool): World {
    CloseWith(before, after, ok, finalizer).0
  }

  function ControllerRound(name: string, spec: ClusterSpec, w: World, input: Input): World {
    var w0 := w.(net := Reload(w.net));
    match input
    case Skipped => w
    case Normal(facts, zones, order, others) =>
      var r := ReconcileNormal(name, spec, w0, facts, order, others);
      CloseScope(w0, r.w, r.Done?, true)
    case Deletion(facts, order, others) =>
      var r := ReconcileDelete(name, spec, w0, facts, order, others);
      CloseScope(w0, r.w, r.Done?, w.finalizer && !r.Done?)
  }

  /** Every service returned nil and the control plane has a host. */
  predicate Succeeds(name: string, spec: ClusterSpec, w: World, input: Input) {
    input.Normal? &&
    var r := ReconcileNormal(name, spec, w.(net := Reload(w.net)), input.facts, input.order, input.others);
    r.Done? && r.w.host != ""
  }

  /** The ready flag is set by a round that succeeds, travels with the status write, and is never taken back. */
  function ReadyAfter(name: string, spec: ClusterSpec, w: World, ready: bool, input: Input): bool {
    ready ||
    (Succeeds(name, spec, w, input) &&
     var after := ReconcileNormal(name, spec, w.(net := Reload(w.net)), input.facts, input.order, input.others).w;
     !Next(Called(after, Patch, after.cloud)).fault.FailsBefore?)
  }

  /** The world in which the other services start: the finalizer is written and the zones are known. */
  function AfterLookups(w: World): World { LookupCall(LookupCall(PatchFinalizer(w, true).w).w).w }

  ghost predicate PossibleInput(name: string, spec: ClusterSpec, w: World, input: Input) {
    var w0 := w.(net := Reload(w.net));
    match input
    case Skipped => true
    case Normal(facts, zones, order, others) =>
      && Distinct(order) && (forall z :: z in order <==> z in DomainsOf(spec, zones))
      && PossibleStages(AfterLookups(w0), BuildOrder(others))
    case Deletion(facts, order, others) =>
      && RangeOrder(w0.net, order)
      && PossibleStages(DeleteAll(ConfigOf(name, spec, facts), w0, order).0, TeardownOrder(others))
  }

  // ----- the finalizer guards the load balancer -----

  ghost predicate Safe(keys: set<Key>, c: Cloud, finalizer: bool) {
    finalizer || forall k :: k in keys ==> k !in c
  }

  /** Now and after every call so far, the finalizer was stored or none of the keys existed. */
  ghost predicate Guarded(keys: set<Key>, w: World) {
    && Safe(keys, w.cloud, w.finalizer)
    && (forall i :: 0 <= i < |w.log| ==> Safe(keys, w.log[i].cloud, w.log[i].finalizer))
  }

  ghost predicate Armed(keys: set<Key>, w: World) { Guarded(keys, w) && w.finalizer }

  /** Stays guarded, keeps the finalizer and creates none of the keys. */
  ghost predicate Fades(keys: set<Key>, w: World, w': World) {
    && Guarded(keys, w') && w'.finalizer == w.finalizer
    && (forall k :: k in w'.cloud ==> k in w.cloud)
  }

  lemma CalledGuarded(keys: set<Key>, w: World, request: Request, c: Cloud)
    requires Guarded(keys, w) && Safe(keys, c, w.finalizer)
    ensures Guarded(keys, Called(w, request, c))
  {
  }

  lemma CallsArmed(keys: set<Key>, w: World, k: Key, spec: Resource)
    requires Armed(keys, w)
    ensures Armed(keys, GetCall(w, k).w) && Armed(keys, InsertCall(w, k, spec).w)
  {
    hide Stored;
    CalledGuarded(keys, w, Get(k), w.cloud);
    CalledGuarded(keys, w, Insert(k), w.cloud);
    CalledGuarded(keys, w, Insert(k), w.cloud[k := Stored(spec, Next(w))]);
  }

  lemma CreateArmed(keys: set<Key>, w: World, k: Key, spec: Resource)
    requires Armed(keys, w)
    ensures Armed(keys, CreateOrGet(w, k, spec).w)
  {
    hide GetCall, InsertCall, Armed;
    CallsArmed(keys, w, k, spec);
    var w1 := GetCall(w, k).w;
    CallsArmed(keys, w1, k, spec);
    CallsArmed(keys, InsertCall(w1, k, spec).w, k, spec);
  }

  lemma ServiceArmed(keys: set<Key>, w: World, k: Key, spec: Resource)
    requires Armed(keys, w)
    ensures Armed(keys, CreateBackendService(w, k, spec).w)
  {
    hide CreateOrGet;
    CreateArmed(keys, w, k, spec);
  }

  lemma RuleArmed(keys: set<Key>, cfg: Config, w: World, k: Key, spec: Resource)
    requires Armed(keys, w)
    ensures Armed(keys, CreateForwardingRule(cfg, w, k, spec).w)
  {
    hide CreateOrGet;
    CreateArmed(keys, w, k, spec);
  }

  lemma {:induction false} SubnetArmed(keys: set<Key>, cfg: Config, w: World, specs: seq<SubnetSpec>)
    requires Armed(keys, w)
    ensures Armed(keys, GetSubnet(cfg, w, specs).w)
    decreases |specs|
  {
    if specs != [] {
      var r := GetCall(w, SubnetKey(cfg, specs[0]));
      SubnetArmed(keys, cfg, r.w, specs[1..]);
    }
  }

  lemma {:induction false} GroupsArmed(keys: set<Key>, cfg: Config, w: World, zones: seq<string>,
                                       m: map<string, Link>, shared: bool)
    requires Armed(keys, w)
    ensures Armed(keys, CreateGroupsFrom(cfg, w, zones, m, shared).w)
    decreases |zones|
  {
    hide CreateOrGet;
    if zones != [] {
      CreateArmed(keys, w, GroupKey(cfg, zones[0]), GroupSpec(cfg));
      var r := CreateOrGet(w, GroupKey(cfg, zones[0]), GroupSpec(cfg));
      if r.Done? {
        var m1 := m[zones[0] := r.value.link];
        var w1 := if shared then r.w.(net := r.w.net.(groups := Some(m1))) else r.w;
        GroupsArmed(keys, cfg, w1, zones[1..], m1, shared);
      }
    }
  }

  /** The facts above for every world at once, so that the chains need no step-by-step replay. */
  ghost predicate ArmedCalls(keys: set<Key>, cfg: Config) {
    && (forall w, k, spec :: Armed(keys, w) ==> Armed(keys, CreateOrGet(w, k, spec).w))
    && (forall w, k, spec :: Armed(keys, w) ==> Armed(keys, CreateBackendService(w, k, spec).w))
    && (forall w, k, spec :: Armed(keys, w) ==> Armed(keys, CreateForwardingRule(cfg, w, k, spec).w))
    && (forall w, specs :: Armed(keys, w) ==> Armed(keys, GetSubnet(cfg, w, specs).w))
  }

  lemma AllArmed(keys: set<Key>, cfg: Config)
    ensures ArmedCalls(keys, cfg)
  {
    hide CreateOrGet, CreateBackendService, CreateForwardingRule, GetSubnet, Guarded;
    forall w, k, spec | Armed(keys, w) ensures Armed(keys, CreateOrGet(w, k, spec).w) { CreateArmed(keys, w, k, spec); }
    forall w, k, spec | Armed(keys, w) ensures Armed(keys, CreateBackendService(w, k, spec).w) {
      ServiceArmed(keys, w, k, spec);
    }
    forall w, k, spec | Armed(keys, w) ensures Armed(keys, CreateForwardingRule(cfg, w, k, spec).w) {
      RuleArmed(keys, cfg, w, k, spec);
    }
    forall w, specs | Armed(keys, w) ensures Armed(keys, GetSubnet(cfg, w, specs).w) {
      SubnetArmed(keys, cfg, w, specs);
    }
  }

  lemma ExternalArmed(keys: set<Key>, cfg: Config, w: World, groups: seq<Link>)
    requires Armed(keys, w)
    ensures Armed(keys, CreateExternal(cfg, w, groups).w)
  {
    AllArmed(keys, cfg);
    hide CreateOrGet, CreateBackendService, CreateForwardingRule;
  }

  lemma InternalArmed(keys: set<Key>, cfg: Config, w: World, groups: seq<Link>)
    requires Armed(keys, w)
    ensures Armed(keys, CreateInternal(cfg, w, groups).w)
  {
    AllArmed(keys, cfg);
    hide CreateOrGet, CreateBackendService, CreateForwardingRule, GetSubnet;
  }

  lemma ReconcileArmed(keys: set<Key>, cfg: Config, w: World, zones: seq<string>)
    requires Armed(keys, w)
    ensures Armed(keys, Reconcile(cfg, w, zones).w)
  {
    hide CreateExternal, CreateInternal, CreateGroupsFrom;
    GroupsArmed(keys, cfg, w, zones, w.net.groups.GetOr(map[]), w.net.groups.Some?);
    var r1 := CreateGroups(cfg, w, zones);
    if r1.Done? {
      ExternalArmed(keys, cfg, r1.w, r1.value);
      var r2: Step<()> := if WantsExternal(cfg) then CreateExternal(cfg, r1.w, r1.value) else Done(r1.w, ());
      InternalArmed(keys, cfg, r2.w, r1.value);
    }
  }

  lemma DeleteFades(keys: set<Key>, w: World, k: Key)
    requires Guarded(keys, w)
    ensures Fades(keys, w, DeleteIfPresent(w, k).w) && Fades(keys, w, DeleteCall(w, k).w)
    ensures DeleteIfPresent(w, k).Done? ==> k !in DeleteIfPresent(w, k).w.cloud
  {
  }

  lemma AllFade(keys: set<Key>)
    ensures forall w, k :: Guarded(keys, w) ==>
              Fades(keys, w, DeleteIfPresent(w, k).w)
              && (DeleteIfPresent(w, k).Done? ==> k !in DeleteIfPresent(w, k).w.cloud)
  {
    hide DeleteIfPresent, Guarded;
    forall w, k | Guarded(keys, w)
      ensures Fades(keys, w, DeleteIfPresent(w, k).w)
              && (DeleteIfPresent(w, k).Done? ==> k !in DeleteIfPresent(w, k).w.cloud)
    {
      DeleteFades(keys, w, k);
    }
  }

  lemma ExternalFades(keys: set<Key>, cfg: Config, w: World)
    requires Guarded(keys, w)
    ensures var r := DeleteExternal(cfg, w);
      && Fades(keys, w, r.w)
      && (r.Done? ==> forall k :: k in Wanted(cfg) && k.scope.Global? ==> k !in r.w.cloud)
  {
    AllFade(keys);
    hide DeleteIfPresent;
  }

  lemma InternalFades(keys: set<Key>, cfg: Config, w: World)
    requires Guarded(keys, w)
    ensures var r := DeleteInternal(cfg, w);
      && Fades(keys, w, r.w)
      && (r.Done? ==> forall k :: k in Wanted(cfg) && k.scope.Regional? ==> k !in r.w.cloud)
  {
    AllFade(keys);
    hide DeleteIfPresent;
  }

  lemma {:induction false} GroupsFade(keys: set<Key>, cfg: Config, w: World, order: seq<string>)
    requires Guarded(keys, w)
    ensures Fades(keys, w, DeleteGroups(cfg, w, order).w)
    decreases |order|
  {
    if order != [] {
      DeleteFades(keys, w, GroupKey(cfg, order[0]));
      var r := DeleteCall(w, GroupKey(cfg, order[0]));
      GroupsFade(keys, cfg, r.w, order[1..]);
      GroupsFade(keys, cfg, r.w.(net := DropGroup(r.w.net, order[0])), order[1..]);
    }
  }

  lemma DeleteAllFades(keys: set<Key>, cfg: Config, w: World, order: seq<string>)
    requires Guarded(keys, w)
    ensures var (w', ok) := DeleteAll(cfg, w, order);
      Fades(keys, w, w') && (ok ==> forall k :: k in Wanted(cfg) ==> k !in w'.cloud)
  {
    hide DeleteExternal, DeleteInternal, DeleteGroups, Guarded;
    ExternalFades(keys, cfg, w);
    var r1: Step<()> := if WantsExternal(cfg) then DeleteExternal(cfg, w) else Done(w, ());
    InternalFades(keys, cfg, r1.w);
    var r2: Step<()> := if WantsInternal(cfg) then DeleteInternal(cfg, r1.w) else Done(r1.w, ());
    GroupsFade(keys, cfg, r2.w, order);
  }

  // ----- the other services -----

  /** The same load balancer resources exist, and the same finalizer is stored. */
  ghost predicate Aside(keys: set<Key>, w: World, w': World) {
    && Guarded(keys, w') && w'.finalizer == w.finalizer && w'.net == w.net && w'.host == w.host
    && (forall k :: k in keys ==> (k in w'.cloud <==> k in w.cloud))
  }

  ghost predicate BalancerKeys(keys: set<Key>) { forall k :: k in keys ==> !k.kind.Subnetworks? }

  lemma {:induction false} StageAside(keys: set<Key>, w: World, s: Stage)
    requires Guarded(keys, w) && BalancerKeys(keys) && LeavesBalancer(w.cloud, s)
    ensures Aside(keys, w, RunStage(w, s).w)
    decreases |s.clouds|
  {
    if s.clouds != [] {
      CalledGuarded(keys, w, Elsewhere, s.clouds[0]);
      var rest := s.(clouds := s.clouds[1..]);
      forall i, k: Key | 0 <= i < |rest.clouds| && !k.kind.Subnetworks?
        ensures k in rest.clouds[i] <==> k in s.clouds[0]
        ensures k in s.clouds[0] ==> rest.clouds[i][k] == s.clouds[0][k]
      {
        assert rest.clouds[i] == s.clouds[i + 1];
      }
      StageAside(keys, Called(w, Elsewhere, s.clouds[0]), rest);
    }
  }

  lemma {:induction false} StagesAside(keys: set<Key>, w: World, stages: seq<Stage>)
    requires Guarded(keys, w) && BalancerKeys(keys) && PossibleStages(w, stages)
    ensures Aside(keys, w, RunStages(w, stages).w)
    decreases |stages|
  {
    hide Guarded, RunStage;
    if stages != [] {
      StageAside(keys, w, stages[0]);
      if RunStage(w, stages[0]).Done? {
        StagesAside(keys, RunStage(w, stages[0]).w, stages[1..]);
      }
    }
  }

  lemma CloseGuarded(keys: set<Key>, before: World, after: World, ok: bool, finalizer: bool)
    requires Guarded(keys, after) && Safe(keys, after.cloud, finalizer)
    ensures Guarded(keys, CloseScope(before, after, ok, finalizer))
  {
  }

  lemma NormalGuarded(keys: set<Key>, name: string, spec: ClusterSpec, w: World, facts: Facts, order: seq<string>,
                      others: Others)
    requires Guarded(keys, w) && BalancerKeys(keys) && PossibleStages(AfterLookups(w), BuildOrder(others))
    ensures Guarded(keys, ReconcileNormal(name, spec, w, facts, order, others).w)
    ensures Safe(keys, ReconcileNormal(name, spec, w, facts, order, others).w.cloud, true)
  {
    hide RunStages, Reconcile, PossibleStages;
    var r1 := PatchFinalizer(w, true);
    if r1.Failed? { return; }
    assert Armed(keys, r1.w);
    var r2 := LookupCall(r1.w);
    if r2.Failed? { return; }
    assert Armed(keys, r2.w);
    var r3 := LookupCall(r2.w);
    if r3.Failed? { return; }
    assert Armed(keys, r3.w);
    StagesAside(keys, r3.w, BuildOrder(others));
    var r4 := RunStages(r3.w, BuildOrder(others));
    if r4.Failed? { return; }
    ReconcileArmed(keys, ConfigOf(name, spec, facts), r4.w, order);
  }

  lemma DeletionGuarded(keys: set<Key>, name: string, spec: ClusterSpec, w: World, facts: Facts, order: seq<string>,
                        others: Others)
    requires Guarded(keys, w) && BalancerKeys(keys) && keys <= Wanted(ConfigOf(name, spec, facts))
    requires PossibleStages(DeleteAll(ConfigOf(name, spec, facts), w, order).0, TeardownOrder(others))
    ensures var r := ReconcileDelete(name, spec, w, facts, order, others);
      Guarded(keys, r.w) && Safe(keys, r.w.cloud, w.finalizer && !r.Done?)
  {
    hide RunStages, DeleteAll, PossibleStages, Wanted;
    DeleteAllFades(keys, ConfigOf(name, spec, facts), w, order);
    var (w1, ok) := DeleteAll(ConfigOf(name, spec, facts), w, order);
    if ok { StagesAside(keys, w1, TeardownOrder(others)); }
  }

  lemma RoundGuarded(keys: set<Key>, name: string, spec: ClusterSpec, w: World, input: Input)
    requires Guarded(keys, w) && PossibleInput(name, spec, w, input)
    requires BalancerKeys(keys) && (!input.Skipped? ==> keys <= Wanted(ConfigOf(name, spec, input.facts)))
    ensures Guarded(keys, ControllerRound(name, spec, w, input))
  {
    hide ReconcileNormal, ReconcileDelete, Wanted, PossibleStages, CloseScope;
    var w0 := w.(net := Reload(w.net));
    assert Guarded(keys, w0);
    match input
    case Skipped =>
    case Normal(facts, zones, order, others) =>
      NormalGuarded(keys, name, spec, w0, facts, order, others);
      var r := ReconcileNormal(name, spec, w0, facts, order, others);
      CloseGuarded(keys, w0, r.w, r.Done?, true);
    case Deletion(facts, order, others) =>
      DeletionGuarded(keys, name, spec, w0, facts, order, others);
      var r := ReconcileDelete(name, spec, w0, facts, order, others);
      CloseGuarded(keys, w0, r.w, r.Done?, w.finalizer && !r.Done?);
  }

  // ----- histories -----

  /** A user edits the spec, or the controller runs a round; deletion may be asked for at any time. */
  datatype Move = Edit(spec: ClusterSpec) | Work(input: Input)

  datatype StoredCluster = StoredCluster(spec: ClusterSpec, w: World, ready: bool)

  ghost function History(name: string, s: StoredCluster, moves: seq<Move>): StoredCluster {
    if moves == [] then s
    else
      var before := History(name, s, moves[..|moves| - 1]);
      match moves[|moves| - 1]
      case Edit(spec) => before.(spec := spec)
      case Work(input) =>
        before.(w := ControllerRound(name, before.spec, before.w, input),
                ready := ReadyAfter(name, before.spec, before.w, before.ready, input))
  }

  ghost predicate PossibleHistory(name: string, s: StoredCluster, moves: seq<Move>) {
    moves == [] ||
    (var rest := moves[..|moves| - 1];
     var before := History(name, s, rest);
     && PossibleHistory(name, s, rest)
     && match moves[|moves| - 1]
        case Edit(spec) => Admitted(before.spec, spec)
        case Work(input) => PossibleInput(name, before.spec, before.w, input))
  }

  /** Admission keeps exactly what the keys are made of. */
  lemma KeysAreFixed(name: string, before: ClusterSpec, after: ClusterSpec, f: Facts, f': Facts)
    requires before.region == after.region && before.loadBalancer == after.loadBalancer
    ensures Wanted(ConfigOf(name, before, f)) == Wanted(ConfigOf(name, after, f'))
  {
  }

  lemma {:induction false} HistoryGuarded(name: string, s: StoredCluster, moves: seq<Move>, facts: Facts)
    requires PossibleHistory(name, s, moves) && Guarded(Wanted(ConfigOf(name, s.spec, facts)), s.w)
    ensures var s' := History(name, s, moves);
      && Guarded(Wanted(ConfigOf(name, s.spec, facts)), s'.w)
      && s'.spec.region == s.spec.region && s'.spec.loadBalancer == s.spec.loadBalancer
  {
    hide Guarded, Wanted, ControllerRound, PossibleInput, ReadyAfter;
    if moves != [] {
      var rest, last := moves[..|moves| - 1], moves[|moves| - 1];
      HistoryGuarded(name, s, rest, facts);
      var before := History(name, s, rest);
      if last.Work? {
        if !last.input.Skipped? { KeysAreFixed(name, s.spec, before.spec, facts, last.input.facts); }
        WantedIsBalancer(ConfigOf(name, s.spec, facts));
        RoundGuarded(Wanted(ConfigOf(name, s.spec, facts)), name, before.spec, before.w, last.input);
      }
    }
  }

  lemma WantedIsBalancer(cfg: Config)
    ensures BalancerKeys(Wanted(cfg))
  {
  }

  /**
    Finalizer discipline: from a cloud without this cluster's chain resources, after every call of
    every history of admitted edits and faulty rounds, a chain resource exists only while the
    finalizer is stored.
   */
  lemma FinalizerGuardsLoadBalancer(name: string, s: StoredCluster, moves: seq<Move>, facts: Facts, k: Key, i: nat)
    requires s.w.log == [] && (forall k :: k in Wanted(ConfigOf(name, s.spec, facts)) ==> k !in s.w.cloud)
    requires PossibleHistory(name, s, moves) && i < |History(name, s, moves).w.log|
    requires k in Wanted(ConfigOf(name, History(name, s, moves).spec, facts))
    ensures var e := History(name, s, moves).w.log[i]; k in e.cloud ==> e.finalizer
  {
    hide Wanted, PossibleHistory, History;
    HistoryGuarded(name, s, moves, facts);
    KeysAreFixed(name, s.spec, History(name, s, moves).spec, facts, facts);
  }

  /** Move `i` of the history is a round in which everything succeeded. */
  ghost predicate SucceedsAt(name: string, s: StoredCluster, moves: seq<Move>, i: int) {
    && 0 <= i < |moves| && moves[i].Work?
    && var before := History(name, s, moves[..i]); Succeeds(name, before.spec, before.w, moves[i].input)
  }

  /**
    Along every history the cluster is ready only if it was before, or after a round in which every service
    succeeded.
   */
  lemma {:induction false} ReadyNeedsSuccess(name: string, s: StoredCluster, moves: seq<Move>)
    requires History(name, s, moves).ready && !s.ready
    ensures exists i :: SucceedsAt(name, s, moves, i)
    decreases |moves|
  {
    hide Succeeds, ControllerRound;
    if moves != [] {
      var n := |moves| - 1;
      var rest := moves[..n];
      if History(name, s, rest).ready {
        ReadyNeedsSuccess(name, s, rest);
        var i :| SucceedsAt(name, s, rest, i);
        assert rest[..i] == moves[..i];
        assert SucceedsAt(name, s, moves, i);
      } else {
        assert SucceedsAt(name, s, moves, n);
      }
    }
  }

  // ----- immutability is needed -----

  /**
    If the load balancer could be edited, deletion would look for the wrong keys: after an edit to a type
    without chains, a fault-free Delete drops the finalizer and leaves every chain resource in place.
   */
  lemma WithoutImmutability(name: string, before: ClusterSpec, spec: ClusterSpec, facts: Facts, w: World, k: Key)
    requires spec == before.(loadBalancer := spec.loadBalancer) && k in Wanted(ConfigOf(name, before, facts))
    requires Type(ConfigOf(name, spec, facts)).OtherType? && w.oracle == [] && w.net.groups == None && k in w.cloud
    ensures var input := Deletion(facts, [], Others(Stage([], true), Stage([], true), Stage([], true)));
      var w' := ControllerRound(name, spec, w, input);
      PossibleInput(name, spec, w, input) && k in w'.cloud && !w'.finalizer
  {
  }
}
