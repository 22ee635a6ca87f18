/**
  Rounds of the control plane service and its controller, whole runs of them, and the service as an
  object that updates status and conditions in place.
 */
module ControlPlaneRounds {
  import opened CloudApi
  import opened Conditions
  import opened Locations
  import NodePoolSpec
  import opened ControlPlaneSpec
  import opened ControlPlaneWishes

  /** `updates` lists the fates of the update requests that were sent. */
  datatype State = State(
    conditions: ConditionMap, ready: bool, initialized: bool, version: Option<string>, endpoint: string,
    finalizer: bool, cluster: Option<GkeCluster>, updates: seq<Fault>)

  datatype Pools = Pools(managed: seq<ManagedPool>, owners: seq<MachinePool>)

  /**
    What a round meets: failing reads, the cluster's node pools (none if the list fails), and the fate of its calls.
   */
  datatype Input = Input(
    managedClusterReady: bool, describeFails: bool, pools: Option<Pools>, fault: Fault, tagsFail: bool,
    kubeconfigFails: bool)

  function NotReady(s: State): State { s.(ready := false, initialized := false) }

  function AllReady(s: State): State { s.(ready := true, initialized := true) }

  /** Preflight, the create call, then the tag bindings; a failure in the last leaves the cluster behind. */
  predicate CreateSends(spec: PlaneSpec, input: Input) {
    input.pools.Some? && AllPass(input.pools.value.managed, input.pools.value.owners, RegionName(spec.location))
  }

  function Create(spec: PlaneSpec, s: State, input: Input): (State, Result) {
    if input.pools.None? then (s.(conditions := MarkThree(s.conditions, FailedReason)), Errored)
    else if spec.autopilot && |input.pools.value.managed| > 0 then
      (s.(conditions := MarkThree(s.conditions, NodePoolRequiredReason)), Errored)
    else if !spec.autopilot && |input.pools.value.managed| == 0 then
      (s.(conditions := MarkThree(s.conditions, NodePoolRequiredReason)), Requeue)
    else
      var sends := CreateSends(spec, input);
      var s1 := if sends && !input.fault.FailsBefore? then s.(cluster := Some(Created(spec))) else s;
      if !sends || !input.fault.Works? || input.tagsFail then
        (s1.(conditions := MarkThree(s.conditions, FailedReason)), Errored)
      else (s1.(conditions := MarkCreating(s.conditions)), Requeue)
  }

  function UpdateRunning(spec: PlaneSpec, s: State, input: Input): (State, Result)
    requires s.cluster.Some?
  {
    var c := s.cluster.value;
    if NeedsUpdate(spec, c) then
      var s1 := s.(updates := s.updates + [input.fault],
                   cluster := if input.fault.FailsBefore? then s.cluster else Some(Apply(UpdateFor(spec, c), c)));
      if !input.fault.Works? then (s1, Errored)
      else (AllReady(s1).(conditions := MarkTrue(s.conditions, Updating)), Finished)
    else
      var s1 := s.(conditions := MarkFalse(s.conditions, Updating, UpdatedReason));
      if input.kubeconfigFails then (s1, Errored)
      else
        (AllReady(s1).(endpoint := c.endpoint,
                       conditions := MarkFalse(MarkTrue(MarkTrue(s1.conditions, Ready), ResourceReady),
                                               Creating, CreatedReason)),
         Finished)
  }

  function ReconcilePlane(spec: PlaneSpec, s: State, input: Input): (State, Result) {
    if input.describeFails then (NotReady(s).(conditions := MarkFalse(s.conditions, Ready, FailedReason)), Errored)
    else if s.cluster.None? then Create(spec, NotReady(s), input)
    else
      var s1 := s.(version := Some(NodePoolSpec.ConvertVersion(s.cluster.value.masterVersion)));
      match s.cluster.value.status
      case Provisioning => (NotReady(s1).(conditions := MarkCreating(s.conditions)), Requeue)
      case Reconciling => (AllReady(s1).(conditions := MarkTrue(s.conditions, Updating)), Requeue)
      case Stopping => (NotReady(s1).(conditions := MarkDeleting(s.conditions)), Requeue)
      case InError => (NotReady(s1).(conditions := MarkFalse(s.conditions, ResourceReady, ErrorReason)), Finished)
      case Degraded => (NotReady(s1).(conditions := MarkFalse(s.conditions, ResourceReady, ErrorReason)), Finished)
      case Running => UpdateRunning(spec, s1, input)
      case OtherStatus => (s1, Errored)
  }

  function DeletePlane(s: State, input: Input): (State, Result) {
    if input.describeFails then (s, Errored)
    else if s.cluster.None? then (s.(conditions := MarkFalse(s.conditions, Deleting, DeletedReason)), Finished)
    else
      match s.cluster.value.status
      case Provisioning => (s, Finished)
      case Reconciling => (s, Finished)
      case Stopping =>
        (s.(conditions := MarkTrue(MarkFalse(s.conditions, ResourceReady, DeletingReason), Deleting)), Finished)
      case _ =>
        var cluster :=
          if input.fault.FailsBefore? then s.cluster else Some(s.cluster.value.(status := ClusterStatus.Stopping));
        if !input.fault.Works? then
          (s.(cluster := cluster, conditions := MarkFalse(s.conditions, Deleting, FailedReason)), Errored)
        else (NotReady(s).(cluster := cluster, conditions := MarkDeleting(s.conditions)), Finished)
  }

  function ControllerReconcile(spec: PlaneSpec, s: State, input: Input): (State, Result) {
    var s1 := s.(finalizer := true);
    if !input.managedClusterReady then (s1, Requeue) else ReconcilePlane(spec, s1, input)
  }

  /** Reading the reason of an absent condition panics. */
  function ControllerDelete(s: State, input: Input): (State, Result) {
    var (s1, r) := DeletePlane(s, input);
    if r != Finished then (s1, r)
    else if Deleting !in s1.conditions then (s1, Panicked)
    else (s1.(finalizer := s1.finalizer && s1.conditions[Deleting].reason != DeletedReason), Requeue)
  }

  // ----- the delete path -----

  /** Delete returns early without touching the conditions. */
  predicate Busy(s: State, input: Input) {
    && !input.describeFails && s.cluster.Some?
    && (s.cluster.value.status == ClusterStatus.Provisioning || s.cluster.value.status == ClusterStatus.Reconciling)
  }

  /**
    The controller reads a condition that was never set exactly when the cluster is busy and no earlier call set it.
   */
  lemma DeletePanicsIff(s: State, input: Input)
    ensures ControllerDelete(s, input).1 == Panicked <==> Busy(s, input) && Deleting !in s.conditions
  {
  }

  /** The finalizer goes when describe found nothing, or when a busy cluster meets a stale Deleted reason. */
  lemma FinalizerGoesIff(s: State, input: Input)
    requires s.finalizer
    ensures !ControllerDelete(s, input).0.finalizer <==>
              || (!input.describeFails && s.cluster.None?)
              || (Busy(s, input) && Deleting in s.conditions && s.conditions[Deleting].reason == DeletedReason)
  {
  }

  // ----- what a round shows and does -----

  /** The round on a running cluster ends well: it is as wished and its kubeconfig is there, or it was updated. */
  ghost predicate EndsWell(spec: PlaneSpec, c: GkeCluster, input: Input) {
    if AsWished(spec, c) then !input.kubeconfigFails else input.fault.Works?
  }

  lemma RunningShows(spec: PlaneSpec, s: State, input: Input)
    requires s.cluster.Some?
    ensures var (s', r) := UpdateRunning(spec, s, input); var c := s.cluster.value;
      && (r == Finished <==> EndsWell(spec, c, input)) && (r != Finished ==> r == Errored)
      && s'.ready == (s.ready || EndsWell(spec, c, input))
      && s'.version == s.version
      && (s'.endpoint == if AsWished(spec, c) && !input.kubeconfigFails then c.endpoint else s.endpoint)
      && (AsWished(spec, c) ==> s'.cluster == s.cluster && s'.updates == s.updates)
      && (!AsWished(spec, c) ==> s'.updates == s.updates + [input.fault])
      && (IsTrue(s'.conditions, Updating) <==>
            !AsWished(spec, c) && (input.fault.Works? || IsTrue(s.conditions, Updating)))
      && (IsTrue(s'.conditions, Ready) <==>
            (AsWished(spec, c) && !input.kubeconfigFails) || IsTrue(s.conditions, Ready))
      && (IsTrue(s'.conditions, ResourceReady) <==>
            (AsWished(spec, c) && !input.kubeconfigFails) || IsTrue(s.conditions, ResourceReady))
      && (IsTrue(s'.conditions, Creating) <==>
            (!AsWished(spec, c) || input.kubeconfigFails) && IsTrue(s.conditions, Creating))
      && (IsTrue(s'.conditions, Deleting) <==> IsTrue(s.conditions, Deleting))
  {
    hide NeedsUpdate, AsWished, UpdateFor, Apply;
    NeedsUpdateIff(spec, s.cluster.value);
  }

  /**
    The status of the cluster in the cloud decides the flags and conditions, and only a running cluster that is not as
    wished is sent an update.
   */
  lemma ShowsStatus(spec: PlaneSpec, s: State, input: Input)
    requires !input.describeFails && s.cluster.Some?
    ensures var (s', r) := ReconcilePlane(spec, s, input); var c := s.cluster.value;
      && s'.version == Some(NodePoolSpec.ConvertVersion(c.masterVersion))
      && (s'.ready <==>
            || c.status == ClusterStatus.Reconciling || (c.status == ClusterStatus.Running && EndsWell(spec, c, input))
            || ((c.status == ClusterStatus.Running || c.status == ClusterStatus.OtherStatus) && s.ready))
      && (s'.updates != s.updates <==> c.status == ClusterStatus.Running && !AsWished(spec, c))
      && (s'.cluster != s.cluster ==> s'.updates == s.updates + [input.fault] && !input.fault.FailsBefore?)
      && (c.status == ClusterStatus.Provisioning ==> IsTrue(s'.conditions, Creating))
      && (c.status == ClusterStatus.Reconciling ==> IsTrue(s'.conditions, Updating))
      && (c.status == ClusterStatus.Stopping ==> IsTrue(s'.conditions, Deleting))
      && (c.status == ClusterStatus.Provisioning || c.status == ClusterStatus.Stopping ==>
            !IsTrue(s'.conditions, Ready) && !IsTrue(s'.conditions, ResourceReady))
      && (c.status == ClusterStatus.InError || c.status == ClusterStatus.Degraded ==>
            !IsTrue(s'.conditions, ResourceReady))
      && (r == Requeue <==>
            c.status in {ClusterStatus.Provisioning, ClusterStatus.Reconciling, ClusterStatus.Stopping})
      && (r == Finished <==>
            || c.status == ClusterStatus.InError || c.status == ClusterStatus.Degraded
            || (c.status == ClusterStatus.Running && EndsWell(spec, c, input)))
  {
    hide UpdateRunning, EndsWell, AsWished, NodePoolSpec.ConvertVersion;
    RunningShows(spec, s.(version := Some(NodePoolSpec.ConvertVersion(s.cluster.value.masterVersion))), input);
    ClusterKept(spec, s.(version := Some(NodePoolSpec.ConvertVersion(s.cluster.value.masterVersion))), input);
  }

  lemma ClusterKept(spec: PlaneSpec, s: State, input: Input)
    requires s.cluster.Some?
    ensures var s' := UpdateRunning(spec, s, input).0;
      s'.cluster != s.cluster ==> s'.updates == s.updates + [input.fault] && !input.fault.FailsBefore?
  {
    hide NeedsUpdate, UpdateFor, Apply;
  }

  /**
    A cluster appears exactly where describe found none, the node pools could be listed, an autopilot cluster has none
    of them and another at least one, all pass their checks, and the request reaches the cloud; until it was described
    again nothing reports it ready.
   */
  lemma CreatesIff(spec: PlaneSpec, s: State, input: Input)
    requires s.cluster.None?
    ensures var (s', r) := ReconcilePlane(spec, s, input);
      && (s'.cluster.Some? <==>
            && !input.describeFails && input.pools.Some? && (spec.autopilot <==> input.pools.value.managed == [])
            && AllPass(input.pools.value.managed, input.pools.value.owners, RegionName(spec.location))
            && !input.fault.FailsBefore?)
      && (s'.cluster.Some? ==> s'.cluster.value.status == ClusterStatus.Provisioning)
      && s'.updates == s.updates && !s'.ready && !s'.initialized && !IsTrue(s'.conditions, Ready) && r != Finished
      && (!input.describeFails ==>
            && !IsTrue(s'.conditions, ResourceReady)
            && (IsTrue(s'.conditions, Creating) <==> s'.cluster.Some? && input.fault.Works? && !input.tagsFail))
  {
    hide AllPass, Created;
    CreatedIsProvisioning(spec);
  }

  lemma CreatedIsProvisioning(spec: PlaneSpec)
    ensures Created(spec).status == ClusterStatus.Provisioning
  {
    hide NodePoolSpec.ConvertVersion, ConvertChannel;
  }

  /** Until the managed cluster is ready, a reconcile sets the finalizer, asks to be repeated and does nothing else. */
  lemma WaitsForCluster(spec: PlaneSpec, s: State, input: Input)
    ensures var (s', r) := ControllerReconcile(spec, s, input);
      s'.finalizer && (!input.managedClusterReady ==> s' == s.(finalizer := true) && r == Requeue)
  {
    hide ReconcilePlane;
    ReconcileGuards(spec, s.(finalizer := true), input);
  }

  /** A delete asks for deletion exactly where the cluster is neither busy nor on its way out. */
  lemma DeleteTouches(s: State, input: Input)
    ensures var (s', r) := DeletePlane(s, input);
      && s'.updates == s.updates && s'.finalizer == s.finalizer && (s'.cluster.Some? <==> s.cluster.Some?)
      && (s.cluster.Some? ==> s'.cluster.value == s.cluster.value.(status := s'.cluster.value.status))
      && (s'.cluster != s.cluster <==>
            && !input.describeFails && s.cluster.Some? && !input.fault.FailsBefore? && !Busy(s, input)
            && s.cluster.value.status != ClusterStatus.Stopping)
      && (s'.cluster != s.cluster ==> s'.cluster.value.status == ClusterStatus.Stopping)
      && (s'.cluster != s.cluster && input.fault.Works? ==>
            && !s'.ready && !s'.initialized && IsTrue(s'.conditions, Deleting)
            && !IsTrue(s'.conditions, Ready) && !IsTrue(s'.conditions, ResourceReady))
  {
  }

  // ----- runs -----

  /**
    Before a round the cluster may have moved on to any status, or be gone; `finalizerLost` says that the write of
    the finalizer fails: the first thing a reconcile does, and the last thing a delete does, its conditions stored.
   */
  datatype Move = Move(status: Option<ClusterStatus>, deleting: bool, finalizerLost: bool, input: Input)

  function Seen(s: State, status: Option<ClusterStatus>): State {
    if s.cluster.None? || status.None? then s.(cluster := None)
    else s.(cluster := Some(s.cluster.value.(status := status.value)))
  }

  function Step(spec: PlaneSpec, s: State, m: Move): (State, Result) {
    var s1 := Seen(s, m.status);
    if m.deleting then
      var (s2, r) := ControllerDelete(s1, m.input);
      (if m.finalizerLost then s2.(finalizer := s.finalizer) else s2, r)
    else if m.finalizerLost then (s1, Errored)
    else ControllerReconcile(spec, s1, m.input)
  }

  ghost function Run(spec: PlaneSpec, s: State, moves: seq<Move>): State {
    if moves == [] then s else Step(spec, Run(spec, s, moves[..|moves| - 1]), moves[|moves| - 1]).0
  }

  /** What every round keeps of the status: agreeing flags still agree, and a Deleting condition stays there. */
  ghost predicate Kept(s: State, s': State) {
    && (s.ready == s.initialized ==> s'.ready == s'.initialized)
    && (Deleting in s.conditions ==> Deleting in s'.conditions)
  }

  lemma CreateKept(spec: PlaneSpec, s: State, input: Input)
    ensures Kept(s, Create(spec, s, input).0)
  {
    hide CreateSends, Created;
  }

  lemma UpdateKept(spec: PlaneSpec, s: State, input: Input)
    requires s.cluster.Some?
    ensures Kept(s, UpdateRunning(spec, s, input).0)
  {
    hide NeedsUpdate, UpdateFor, Apply;
  }

  lemma ReconcileKept(spec: PlaneSpec, s: State, input: Input)
    ensures Kept(s, ReconcilePlane(spec, s, input).0)
  {
    hide Create, UpdateRunning;
    CreateKept(spec, NotReady(s), input);
    if s.cluster.Some? {
      UpdateKept(spec, s.(version := Some(NodePoolSpec.ConvertVersion(s.cluster.value.masterVersion))), input);
    }
  }

  lemma DeleteKept(s: State, input: Input)
    ensures Kept(s, ControllerDelete(s, input).0)
  {
  }

  lemma StepKept(spec: PlaneSpec, s: State, m: Move)
    ensures Kept(s, Step(spec, s, m).0)
  {
    hide ReconcilePlane, ControllerDelete;
    ReconcileKept(spec, Seen(s, m.status).(finalizer := true), m.input);
    DeleteKept(Seen(s, m.status), m.input);
  }

  /** Along every run the two status flags agree, and a Deleting condition once set can always be read. */
  lemma {:induction false} ReadyIsInitialized(spec: PlaneSpec, s: State, moves: seq<Move>)
    requires s.ready == s.initialized
    ensures var s' := Run(spec, s, moves);
      s'.ready == s'.initialized && (Deleting in s.conditions ==> Deleting in s'.conditions)
    decreases |moves|
  {
    hide Step;
    if moves != [] {
      ReadyIsInitialized(spec, s, moves[..|moves| - 1]);
      StepKept(spec, Run(spec, s, moves[..|moves| - 1]), moves[|moves| - 1]);
    }
  }

  predicate SaysDeleted(cs: ConditionMap) { Deleting in cs && cs[Deleting].reason == DeletedReason }

  /** A cluster is guarded, and none is there once an object being deleted says Deleted. */
  ghost predicate Guarded(s: State, deleting: bool) {
    && (s.cluster.Some? ==> s.finalizer)
    && (SaysDeleted(s.conditions) ==> deleting && s.cluster.None?)
  }

  ghost predicate Silent(s: State, s': State) {
    s'.finalizer == s.finalizer && (SaysDeleted(s'.conditions) ==> SaysDeleted(s.conditions))
  }

  lemma CreateGuards(spec: PlaneSpec, s: State, input: Input)
    ensures Silent(s, Create(spec, s, input).0)
  {
    hide CreateSends, Created;
  }

  lemma UpdateGuards(spec: PlaneSpec, s: State, input: Input)
    requires s.cluster.Some?
    ensures Silent(s, UpdateRunning(spec, s, input).0)
  {
    hide NeedsUpdate, UpdateFor, Apply;
  }

  lemma ReconcileGuards(spec: PlaneSpec, s: State, input: Input)
    ensures Silent(s, ReconcilePlane(spec, s, input).0)
  {
    hide Create, UpdateRunning, NodePoolSpec.ConvertVersion;
    CreateGuards(spec, NotReady(s), input);
    if s.cluster.Some? {
      UpdateGuards(spec, s.(version := Some(NodePoolSpec.ConvertVersion(s.cluster.value.masterVersion))), input);
    }
  }

  lemma StepGuards(spec: PlaneSpec, s: State, m: Move, deleting: bool)
    requires Guarded(s, deleting) && (deleting ==> m.deleting)
    ensures Guarded(Step(spec, s, m).0, m.deleting)
  {
    hide ReconcilePlane, ControllerDelete;
    var s1 := Seen(s, m.status);
    if m.deleting { DeleteGuards(s1, m.input); } else { ReconcileGuards(spec, s1.(finalizer := true), m.input); }
  }

  lemma DeleteGuards(s: State, input: Input)
    requires Guarded(s, true)
    ensures Guarded(ControllerDelete(s, input).0, true)
    ensures var s' := ControllerDelete(s, input).0; Guarded(s'.(finalizer := s.finalizer), true)
  {
    hide DeletePlane;
    DeleteTouches(s, input);
    DeleteSays(s, input);
  }

  lemma DeleteSays(s: State, input: Input)
    ensures SaysDeleted(DeletePlane(s, input).0.conditions) ==> s.cluster.None? || SaysDeleted(s.conditions)
  {
  }

  /**
    Along every run in which deletion once asked for stays asked for, whatever fails, a cluster exists only while the
    finalizer is there.
   */
  lemma {:induction false} FinalizerGuardsCluster(spec: PlaneSpec, s: State, moves: seq<Move>)
    requires (s.cluster.Some? ==> s.finalizer) && !SaysDeleted(s.conditions)
    requires forall i, j :: 0 <= i < j < |moves| && moves[i].deleting ==> moves[j].deleting
    ensures Run(spec, s, moves).cluster.Some? ==> Run(spec, s, moves).finalizer
    ensures Guarded(Run(spec, s, moves), moves != [] && moves[|moves| - 1].deleting)
    decreases |moves|
  {
    hide Step;
    if moves != [] {
      var before := moves[..|moves| - 1];
      FinalizerGuardsCluster(spec, s, before);
      StepGuards(spec, Run(spec, s, before), moves[|before|], before != [] && before[|before| - 1].deleting);
    }
  }

  /** The missing condition is met in practice: deleting an object right after its cluster was created panics. */
  lemma EarlyDeletePanics(spec: PlaneSpec, s: State, create: Input, delete: Input)
    requires s.conditions == map[] && s.cluster.None? && spec.autopilot
    requires create.managedClusterReady && !create.describeFails && create.fault.Works? && !create.tagsFail
    requires create.pools == Some(Pools([], [])) && !delete.describeFails
    ensures var (s1, r1) := Step(spec, s, Move(None, false, false, create));
      && r1 == Requeue && s1.cluster.Some?
      && Step(spec, s1, Move(Some(s1.cluster.value.status), true, false, delete)).1 == Panicked
  {
    assert CreateSends(spec, create);
  }

  /**
    The stale reason is met too: a delete finds no cluster but its finalizer write is lost; then someone creates the
    cluster again, and the next delete drops the finalizer while the cluster is being provisioned or reconciled.
   */
  lemma StaleReasonDropsFinalizer(spec: PlaneSpec, s: State, c: GkeCluster, first: Input, second: Input)
    requires s.finalizer && s.cluster.None? && !first.describeFails && !second.describeFails
    requires c.status == ClusterStatus.Provisioning || c.status == ClusterStatus.Reconciling
    ensures var s1 := Step(spec, s, Move(None, true, true, first)).0;
      var s2 := Step(spec, s1.(cluster := Some(c)), Move(Some(c.status), true, false, second)).0;
      s1.finalizer && !s2.finalizer && s2.cluster == Some(c)
  {
  }

  // ----- convergence -----

  /** A round that reaches the comparison and whose calls succeed. */
  predicate Clean(m: Move) {
    && !m.deleting && !m.finalizerLost && m.status == Some(ClusterStatus.Running)
    && m.input.managedClusterReady && !m.input.describeFails && m.input.fault.Works? && !m.input.kubeconfigFails
  }

  ghost predicate KeepsCluster(moves: seq<Move>) { forall m :: m in moves ==> !m.deleting && m.status.Some? }

  ghost predicate HasClean(moves: seq<Move>) { exists m :: m in moves && Clean(m) }

  /** The updates that took effect. */
  function Effective(updates: seq<Fault>): nat {
    if updates == [] then 0
    else Effective(updates[..|updates| - 1]) + (if updates[|updates| - 1].FailsBefore? then 0 else 1)
  }

  lemma EffectiveAppend(updates: seq<Fault>, f: Fault)
    ensures Effective(updates + [f]) == Effective(updates) + (if f.FailsBefore? then 0 else 1)
  {
    assert (updates + [f])[..|updates + [f]| - 1] == updates;
  }

  function Pending(spec: PlaneSpec, s: State): nat {
    if s.cluster.Some? && NeedsUpdate(spec, s.cluster.value) then 1 else 0
  }

  ghost predicate Settling(spec: PlaneSpec, s: State) { s.cluster.Some? && Settles(spec, s.cluster.value) }

  lemma StatusAside(spec: PlaneSpec, c: GkeCluster, status: ClusterStatus)
    ensures NeedsUpdate(spec, c.(status := status)) == NeedsUpdate(spec, c)
    ensures Settles(spec, c.(status := status)) == Settles(spec, c)
  {
  }

  ghost predicate AtRest(s: State, r: Result) {
    && r == Finished && s.ready && IsTrue(s.conditions, Ready) && IsTrue(s.conditions, ResourceReady)
    && Updating in s.conditions && !IsTrue(s.conditions, Updating)
  }

  /** From a running cluster: at most one update, which settles what can be settled. */
  lemma UpdateFacts(spec: PlaneSpec, s: State, input: Input)
    requires s.cluster.Some?
    ensures var (s', r) := UpdateRunning(spec, s, input);
      && s'.cluster.Some? && (Settling(spec, s') <==> Settling(spec, s))
      && (Settling(spec, s) ==>
            && Pending(spec, s') + Effective(s'.updates) <= Pending(spec, s) + Effective(s.updates)
            && Pending(spec, s') <= Pending(spec, s)
            && (input.fault.Works? ==> Pending(spec, s') == 0))
      && (Settling(spec, s) && !input.kubeconfigFails && Pending(spec, s) == 0 ==>
            s'.updates == s.updates && AtRest(s', r) && s'.endpoint == s'.cluster.value.endpoint)
      && (!Settling(spec, s) && input.fault.Works? ==> s'.updates == s.updates + [Works] && !AtRest(s', r))
  {
    hide NeedsUpdate, UpdateFor, Apply, Settles, Effective;
    EffectiveAppend(s.updates, input.fault);
    UpdateSettlesIff(spec, s.cluster.value);
  }

  lemma RoundKeeps(spec: PlaneSpec, s: State, m: Move)
    requires s.cluster.Some? && !m.deleting && m.status.Some?
    ensures var (s', r) := Step(spec, s, m);
      && s'.cluster.Some? && (Settling(spec, s') <==> Settling(spec, s))
      && (Settling(spec, s) ==>
            && Pending(spec, s') + Effective(s'.updates) <= Pending(spec, s) + Effective(s.updates)
            && Pending(spec, s') <= Pending(spec, s))
      && (Settling(spec, s) && Clean(m) ==> Pending(spec, s') == 0)
      && (Settling(spec, s) && Clean(m) && Pending(spec, s) == 0 ==>
            s'.updates == s.updates && AtRest(s', r) && s'.endpoint == s'.cluster.value.endpoint)
      && (!Settling(spec, s) && Clean(m) ==> s'.updates == s.updates + [Works] && !AtRest(s', r))
  {
    hide NeedsUpdate, Settles, NodePoolSpec.ConvertVersion, Effective, UpdateRunning, Create;
    var c := s.cluster.value.(status := m.status.value);
    StatusAside(spec, s.cluster.value, m.status.value);
    var s1 := s.(cluster := Some(c), finalizer := true, version := Some(NodePoolSpec.ConvertVersion(c.masterVersion)));
    UpdateFacts(spec, s1, m.input);
  }

  lemma {:induction false} RunKeeps(spec: PlaneSpec, s: State, moves: seq<Move>)
    requires s.cluster.Some? && KeepsCluster(moves)
    ensures var s' := Run(spec, s, moves);
      && s'.cluster.Some? && (Settling(spec, s') <==> Settling(spec, s))
      && (Settling(spec, s) ==> Pending(spec, s') + Effective(s'.updates) <= Pending(spec, s) + Effective(s.updates))
      && (Settling(spec, s) && HasClean(moves) ==> Pending(spec, s') == 0)
    decreases |moves|
  {
    hide Step, Settling, Pending, Clean, Effective;
    if moves != [] {
      var before, last := moves[..|moves| - 1], moves[|moves| - 1];
      assert last in moves && moves == before + [last];
      assert HasClean(moves) ==> HasClean(before) || Clean(last);
      RunKeeps(spec, s, before);
      RoundKeeps(spec, Run(spec, s, before), last);
    }
  }

  /**
    Convergence, with its exact condition.  If monitoring is unset or right and version and logging can be
    stored, one update is all that takes effect, and after one clean round every further clean round sends
    nothing, reports the control plane ready at the cluster's endpoint, and leaves a cluster as wished in every compared
    field; otherwise every clean round of every run sends an update to a cluster that is not as wished.
   */
  lemma ConvergesIff(spec: PlaneSpec, s: State, moves: seq<Move>, last: Move)
    requires s.cluster.Some? && s.updates == [] && KeepsCluster(moves) && HasClean(moves) && Clean(last)
    ensures var s1 := Run(spec, s, moves); var (s2, r) := Step(spec, s1, last);
      && (Settling(spec, s) ==> Effective(s1.updates) <= 1)
      && (AtRest(s2, r) && s2.updates == s1.updates <==> Settling(spec, s))
      && (!Settling(spec, s) ==> s2.updates == s1.updates + [Works])
      && s2.cluster.Some? && (AsWished(spec, s2.cluster.value) <==> Settling(spec, s))
      && (Settling(spec, s) ==> s2.endpoint == s2.cluster.value.endpoint)
  {
    hide Step, Settles, AtRest, AsWished, NeedsUpdate, UpdateFor;
    RunKeeps(spec, s, moves);
    var s1 := Run(spec, s, moves);
    RoundKeeps(spec, s1, last);
    var s2 := Step(spec, s1, last).0;
    NeedsUpdateIff(spec, s2.cluster.value);
    UpdateSettlesIff(spec, s2.cluster.value);
  }

  // ----- the service as an object -----

  class Service {
    const spec: PlaneSpec
    var conditions: ConditionMap
    var ready: bool
    var initialized: bool
    var version: Option<string>
    var endpoint: string
    var finalizer: bool
    var cluster: Option<GkeCluster>
    var updates: seq<Fault>

    constructor (spec: PlaneSpec, s: State)
      ensures this.spec == spec && Value() == s
    {
      this.spec := spec;
      conditions, ready, initialized, version, endpoint := s.conditions, s.ready, s.initialized, s.version, s.endpoint;
      finalizer, cluster, updates := s.finalizer, s.cluster, s.updates;
    }

    ghost function Value(): State
      reads this
    {
      State(conditions, ready, initialized, version, endpoint, finalizer, cluster, updates)
    }

    method MarkThreeFalse(r: Reason)
      modifies this`conditions
      ensures conditions == MarkThree(old(conditions), r)
    {
      conditions := MarkFalse(conditions, Ready, r);
      conditions := MarkFalse(conditions, ResourceReady, r);
      conditions := MarkFalse(conditions, Creating, r);
    }

    method CreateCluster(input: Input) returns (r: Result)
      requires cluster.None?
      modifies this`cluster, this`conditions
      ensures (Value(), r) == Create(spec, old(Value()), input)
    {
      hide Created, MarkThree;
      if input.pools.None? {
        MarkThreeFalse(FailedReason);
        return Errored;
      }
      var pools := input.pools.value;
      if spec.autopilot {
        if |pools.managed| > 0 {
          MarkThreeFalse(NodePoolRequiredReason);
          return Errored;
        }
      } else {
        if |pools.managed| == 0 {
          MarkThreeFalse(NodePoolRequiredReason);
          return Requeue;
        }
      }
      var preflight := PreflightAll(pools.managed, pools.owners, RegionName(spec.location));
      var ok := preflight == Passed;
      if ok {
        if !input.fault.FailsBefore? {
          cluster := Some(Created(spec));
        }
        ok := input.fault.Works? && !input.tagsFail;
      }
      if !ok {
        MarkThreeFalse(FailedReason);
        return Errored;
      }
      conditions := MarkFalse(conditions, Ready, CreatingReason);
      conditions := MarkFalse(conditions, ResourceReady, CreatingReason);
      conditions := MarkTrue(conditions, Creating);
      return Requeue;
    }

    method ReconcileRunning(input: Input) returns (r: Result)
      requires cluster.Some?
      modifies this
      ensures (Value(), r) == UpdateRunning(spec, old(Value()), input)
    {
      hide NeedsUpdate, UpdateFor, Apply;
      var needUpdate, update := CheckDiffAndPrepareUpdate(spec, cluster.value);
      if needUpdate {
        updates := updates + [input.fault];
        if !input.fault.FailsBefore? {
          cluster := Some(Apply(update, cluster.value));
        }
        if !input.fault.Works? {
          return Errored;
        }
        conditions := MarkTrue(conditions, Updating);
        initialized, ready := true, true;
        return Finished;
      }
      conditions := MarkFalse(conditions, Updating, UpdatedReason);
      if input.kubeconfigFails {
        return Errored;
      }
      endpoint := cluster.value.endpoint;
      conditions := MarkTrue(conditions, Ready);
      conditions := MarkTrue(conditions, ResourceReady);
      conditions := MarkFalse(conditions, Creating, CreatedReason);
      ready, initialized := true, true;
      return Finished;
    }

    method Reconcile(input: Input) returns (r: Result)
      modifies this
      ensures (Value(), r) == ReconcilePlane(spec, old(Value()), input)
    {
      hide UpdateRunning, Create;
      if input.describeFails {
        initialized, ready := false, false;
        conditions := MarkFalse(conditions, Ready, FailedReason);
        return Errored;
      }
      if cluster.None? {
        initialized, ready := false, false;
        r := CreateCluster(input);
        return;
      }
      version := Some(NodePoolSpec.ConvertVersion(cluster.value.masterVersion));
      match cluster.value.status {
        case Provisioning =>
          conditions := MarkFalse(conditions, Ready, CreatingReason);
          conditions := MarkFalse(conditions, ResourceReady, CreatingReason);
          conditions := MarkTrue(conditions, Creating);
          initialized, ready := false, false;
          return Requeue;
        case Reconciling =>
          conditions := MarkTrue(conditions, Updating);
          initialized, ready := true, true;
          return Requeue;
        case Stopping =>
          conditions := MarkFalse(conditions, Ready, DeletingReason);
          conditions := MarkFalse(conditions, ResourceReady, DeletingReason);
          conditions := MarkTrue(conditions, Deleting);
          initialized, ready := false, false;
          return Requeue;
        case InError =>
          conditions := MarkFalse(conditions, ResourceReady, ErrorReason);
          ready, initialized := false, false;
          return Finished;
        case Degraded =>
          conditions := MarkFalse(conditions, ResourceReady, ErrorReason);
          ready, initialized := false, false;
          return Finished;
        case Running =>
          r := ReconcileRunning(input);
        case OtherStatus =>
          return Errored;
      }
    }

    method Delete(input: Input) returns (r: Result)
      modifies this
      ensures (Value(), r) == DeletePlane(old(Value()), input)
    {
      if input.describeFails {
        return Errored;
      }
      if cluster.None? {
        conditions := MarkFalse(conditions, Deleting, DeletedReason);
        return Finished;
      }
      match cluster.value.status {
        case Provisioning => return Finished;
        case Reconciling => return Finished;
        case Stopping =>
          conditions := MarkFalse(conditions, ResourceReady, DeletingReason);
          conditions := MarkTrue(conditions, Deleting);
          return Finished;
        case _ =>
      }
      if !input.fault.FailsBefore? {
        cluster := Some(cluster.value.(status := ClusterStatus.Stopping));
      }
      if !input.fault.Works? {
        conditions := MarkFalse(conditions, Deleting, FailedReason);
        return Errored;
      }
      initialized, ready := false, false;
      conditions := MarkFalse(conditions, Ready, DeletingReason);
      conditions := MarkFalse(conditions, ResourceReady, DeletingReason);
      conditions := MarkTrue(conditions, Deleting);
      return Finished;
    }

    /** The controller's delete, as far as it goes before the missing condition would stop it. */
    method ReconcileDelete(input: Input) returns (r: Result)
      modifies this
      ensures (Value(), r) == ControllerDelete(old(Value()), input)
      ensures r == Panicked <==> Busy(old(Value()), input) && Deleting !in old(conditions)
    {
      hide DeletePlane;
      DeletePanicsIff(Value(), input);
      r := Delete(input);
      if r != Finished {
        return;
      }
      if Deleting !in conditions {
        return Panicked;
      }
      if conditions[Deleting].reason == DeletedReason {
        finalizer := false;
      }
      return Requeue;
    }
  }
}
