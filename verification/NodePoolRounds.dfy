/**
  Rounds of the node pool service and its controller: the conditions and status they leave behind,
  and whole runs of them against a cloud that stores what it is sent.
 */
module NodePoolRounds {
  import opened CloudApi
  import opened Conditions
  import opened ProviderIds
  import opened Locations
  import opened NodePoolSpec
  import opened NodePoolConvergence
  import opened NodePoolWishes

  /** The object and the pool behind it; `sent` lists the mutating requests and how each went. */
  datatype State = State(
    conditions: ConditionMap, ready: bool, providerIds: seq<string>, replicas: int, finalizer: bool,
    pool: Option<NodePool>, sent: seq<Sent>)

  datatype Sent = Sent(mutation: Mutation, fault: Fault)

  /**
    What a round meets: failing reads, the instance URLs (none if listing fails), and the fate of its one mutating
    request.
   */
  datatype Input = Input(
    describeFails: bool, instances: Option<seq<string>>, fault: Fault, refused: bool, zones: seq<string>)

  /** How a failing GKE call shows: `refused` tells whether its code is failed-precondition. */
  function ApiError(input: Input): Result { if input.refused then FailedPrecondition else Errored }

  function SetReadyFromConditions(s: State): State {
    s.(ready := IsTrue(s.conditions, Ready) || IsTrue(s.conditions, Updating))
  }

  function ParseAll(urls: seq<string>): Option<seq<string>> {
    if urls == [] then Some([])
    else
      var before, id := ParseAll(urls[..|urls| - 1]), FromResourceUrl(urls[|urls| - 1]);
      if before.None? || id.None? then None else Some(before.value + [id.value.Text()])
  }

  /** The list of provider IDs, position by position; one URL that does not parse spoils it. */
  lemma {:induction false} ParseAllIff(urls: seq<string>)
    ensures ParseAll(urls) == None <==> exists i :: 0 <= i < |urls| && FromResourceUrl(urls[i]) == None
    ensures ParseAll(urls) != None ==>
              |ParseAll(urls).value| == |urls| && forall i :: 0 <= i < |urls| ==>
                FromResourceUrl(urls[i]).Some? && ParseAll(urls).value[i] == FromResourceUrl(urls[i]).value.Text()
  {
    hide FromResourceUrl, ProviderId.Text;
    if urls != [] {
      var n := |urls| - 1;
      ParseAllIff(urls[..n]);
      assert forall i :: 0 <= i < n ==> urls[..n][i] == urls[i];
    }
  }

  function Create(spec: PoolSpec, s: State, input: Input): (State, Result) {
    var failed := s.(conditions := MarkThree(s.conditions, FailedReason));
    if !Preflight(Managed(spec), spec.owner, RegionName(spec.clusterLocation)) then (failed, Errored)
    else
      var pool := if input.fault.FailsBefore? then None else Some(Created(spec, input.zones));
      if !input.fault.Works? then (failed.(pool := pool), ApiError(input))
      else (s.(pool := pool, conditions := MarkCreating(s.conditions)), Requeue)
  }

  function SendUpdate(s: State, m: Mutation, input: Input): (State, Result)
    requires s.pool.Some?
  {
    var s1 := s.(sent := s.sent + [Sent(m, input.fault)],
                 pool := if input.fault.FailsBefore? then s.pool else Some(ApplyMutation(m, s.pool.value)));
    if !input.fault.Works? then (s1, ApiError(input))
    else (s1.(conditions := MarkTrue(s.conditions, Updating)), Requeue)
  }

  function RunningConditions(cs: ConditionMap): ConditionMap {
    MarkFalse(MarkTrue(MarkTrue(cs, Ready), ResourceReady), Creating, CreatedReason)
  }

  function UpdateRunning(spec: PoolSpec, s: State, input: Input): (State, Result)
    requires s.pool.Some?
  {
    var running := s.(conditions := RunningConditions(s.conditions));
    match NextMutation(spec, s.pool.value)
    case Send(m) => SendUpdate(running, m, input)
    case Panic => (running, Panicked)
    case Nothing =>
      (running.(conditions := MarkFalse(running.conditions, Updating, UpdatedReason), replicas := |s.providerIds|),
       Finished)
  }

  function ByStatus(spec: PoolSpec, s: State, input: Input): (State, Result)
    requires s.pool.Some?
  {
    match s.pool.value.status
    case Provisioning => (s.(conditions := MarkCreating(s.conditions)), Requeue)
    case Reconciling => (s.(conditions := MarkTrue(s.conditions, Updating)), Requeue)
    case Stopping => (s.(conditions := MarkDeleting(s.conditions)), Finished)
    case InError => (s.(conditions := MarkFalse(s.conditions, ResourceReady, ErrorReason)), Finished)
    case RunningWithError => (s.(conditions := MarkFalse(s.conditions, ResourceReady, ErrorReason)), Finished)
    case Running => UpdateRunning(spec, s, input)
    case OtherStatus => (s, Finished)
  }

  function ReconcileBody(spec: PoolSpec, s: State, input: Input): (State, Result) {
    if input.describeFails then (s.(conditions := MarkFalse(s.conditions, Ready, FailedReason)), ApiError(input))
    else if s.pool.None? then Create(spec, s, input)
    else if input.instances.None? then (s.(conditions := MarkFalse(s.conditions, Ready, FailedReason)), Errored)
    else
      var ids := ParseAll(input.instances.value);
      if ids.None? then (s.(conditions := MarkFalse(s.conditions, ResourceReady, ErrorReason)), Errored)
      else ByStatus(spec, s.(providerIds := ids.value, replicas := |ids.value|), input)
  }

  function Reconcile(spec: PoolSpec, s: State, input: Input): (State, Result) {
    var (s1, r) := ReconcileBody(spec, s, input);
    (SetReadyFromConditions(s1), r)
  }

  function DeleteBody(s: State, input: Input): (State, Result) {
    if input.describeFails then (s, ApiError(input))
    else if s.pool.None? then (s.(conditions := MarkFalse(s.conditions, Deleting, DeletedReason)), Finished)
    else
      match s.pool.value.status
      case Provisioning => (s, Requeue)
      case Reconciling => (s, Requeue)
      case Stopping =>
        (s.(conditions := MarkTrue(MarkFalse(s.conditions, ResourceReady, DeletingReason), Deleting)), Requeue)
      case _ =>
        var pool := if input.fault.FailsBefore? then s.pool else Some(s.pool.value.(status := Stopping));
        if !input.fault.Works? then
          (s.(pool := pool, conditions := MarkFalse(s.conditions, Deleting, FailedReason)), ApiError(input))
        else (s.(pool := pool, conditions := MarkDeleting(s.conditions)), Finished)
  }

  function Delete(s: State, input: Input): (State, Result) {
    var (s1, r) := DeleteBody(s, input);
    (SetReadyFromConditions(s1), r)
  }

  /** The controller turns a refusal into a later retry without an error. */
  function ReconcileNormal(spec: PoolSpec, s: State, input: Input): (State, Result) {
    var (s1, r) := Reconcile(spec, s.(finalizer := true), input);
    (s1, if r == FailedPrecondition then Requeue else r)
  }

  /** The controller's delete: reading the reason of an absent condition would panic. */
  function ReconcileDelete(s: State, input: Input): (State, Result) {
    var (s1, r) := Delete(s, input);
    if r == FailedPrecondition then (s1, Requeue)
    else if r != Finished then (s1, r)
    else if Deleting !in s1.conditions then (s1, Panicked)
    else (s1.(finalizer := s1.finalizer && s1.conditions[Deleting].reason != DeletedReason), Requeue)
  }

  // ----- status and finalizer -----

  ghost predicate ReadyMatches(s: State) { s.ready == (IsTrue(s.conditions, Ready) || IsTrue(s.conditions, Updating)) }

  /**
    In exactly the delete calls whose own describe found no pool, the finalizer goes; the condition is always there
    to read.
   */
  lemma FinalizerGoesIff(s: State, input: Input)
    requires s.finalizer
    ensures var (s', r) := ReconcileDelete(s, input);
      && (!s'.finalizer <==> !input.describeFails && s.pool.None?)
      && r != Panicked && r != FailedPrecondition && ReadyMatches(s')
  {
  }

  // ----- what a round shows and does -----

  ghost predicate ReadsAll(s: State, input: Input) {
    !input.describeFails && s.pool.Some? && input.instances.Some? && ParseAll(input.instances.value).Some?
  }

  /** What a pool of this status shows, given what was shown before. */
  ghost predicate Shows(status: PoolStatus, before: ConditionMap, after: ConditionMap) {
    && (IsTrue(after, Ready) <==>
          status == Running || (status != Provisioning && status != Stopping && IsTrue(before, Ready)))
    && (IsTrue(after, ResourceReady) <==>
          || status == Running
          || ((status == Reconciling || status == OtherStatus) && IsTrue(before, ResourceReady)))
    && (IsTrue(after, Creating) <==> status == Provisioning || (status != Running && IsTrue(before, Creating)))
    && (IsTrue(after, Deleting) <==> status == Stopping || IsTrue(before, Deleting))
    && (status == Reconciling ==> IsTrue(after, Updating))
    && (status != Running && status != Reconciling ==> (IsTrue(after, Updating) <==> IsTrue(before, Updating)))
  }

  lemma OtherStatusShows(spec: PoolSpec, s: State, input: Input)
    requires s.pool.Some? && s.pool.value.status != Running
    ensures var (s', r) := ByStatus(spec, s, input); var status := s.pool.value.status;
      && Shows(status, s.conditions, s'.conditions) && s' == s.(conditions := s'.conditions)
      && (r == Requeue <==> status == Provisioning || status == Reconciling) && (r != Requeue ==> r == Finished)
  {
    hide UpdateRunning;
  }

  /**
    The status of the pool in the cloud decides the conditions: ready when running, not ready while it is created or
    stopped, and otherwise as before; the provider IDs are those of the instances, and replicas their number.  The round
    is to be repeated while the pool is created or changed, and is over otherwise unless it runs.
   */
  lemma ConditionsByStatus(spec: PoolSpec, s: State, input: Input)
    requires ReadsAll(s, input)
    ensures var (s', r) := Reconcile(spec, s, input); var status := s.pool.value.status;
      && Shows(status, s.conditions, s'.conditions)
      && s'.providerIds == ParseAll(input.instances.value).value && s'.replicas == |input.instances.value|
      && (status == Running && AsWished(spec, s.pool.value) ==> !IsTrue(s'.conditions, Updating) && r == Finished)
      && (s'.sent != s.sent && input.fault.Works? ==> IsTrue(s'.conditions, Updating) && r == Requeue)
      && (status == Provisioning || status == Reconciling ==> r == Requeue)
      && (status == Stopping || status == InError || status == RunningWithError || status == OtherStatus ==>
            r == Finished)
  {
    hide ParseAll, UpdateRunning, AsWished, IsTrue, Shows;
    ParseAllIff(input.instances.value);
    var ids := ParseAll(input.instances.value).value;
    var s1 := s.(providerIds := ids, replicas := |ids|);
    if s.pool.value.status == Running {
      RunningShows(spec, s1, input);
    } else {
      hide ByStatus;
      OtherStatusShows(spec, s1, input);
    }
  }

  lemma RunningShows(spec: PoolSpec, s: State, input: Input)
    requires s.pool.Some? && s.replicas == |s.providerIds|
    ensures var (s', r) := UpdateRunning(spec, s, input);
      && Shows(Running, s.conditions, s'.conditions)
      && s'.providerIds == s.providerIds && s'.replicas == s.replicas
      && (AsWished(spec, s.pool.value) ==> !IsTrue(s'.conditions, Updating) && r == Finished)
      && (s'.sent != s.sent && input.fault.Works? ==> IsTrue(s'.conditions, Updating) && r == Requeue)
  {
    hide NextMutation, ApplyMutation, AsWished;
    RestIffAsWished(spec, s.pool.value);
  }

  /**
    A round that finds no pool leaves it not ready; it reports a pool being created, and asks to be repeated, exactly if
    the checks pass and the request succeeds.
   */
  lemma CreationShows(spec: PoolSpec, s: State, input: Input)
    requires s.pool.None? && !input.describeFails
    ensures var (s', r) := Reconcile(spec, s, input);
      && !IsTrue(s'.conditions, Ready) && !IsTrue(s'.conditions, ResourceReady)
      && (IsTrue(s'.conditions, Creating) <==> s'.pool.Some? && input.fault.Works?)
      && (r == Requeue <==> s'.pool.Some? && input.fault.Works?) && r != Finished && s'.sent == s.sent
      && s'.providerIds == s.providerIds && s'.replicas == s.replicas
  {
    hide Preflight, Created;
  }

  /** A round that cannot read the pool or its instances says so, and changes nothing in the cloud. */
  lemma FailedReadsShow(spec: PoolSpec, s: State, input: Input)
    requires !ReadsAll(s, input) && (input.describeFails || s.pool.Some?)
    ensures var (s', r) := Reconcile(spec, s, input);
      && s'.pool == s.pool && s'.sent == s.sent && r != Finished && r != Requeue
      && (input.describeFails || input.instances.None? ==> !IsTrue(s'.conditions, Ready))
      && (!input.describeFails && input.instances.Some? ==> !IsTrue(s'.conditions, ResourceReady))
  {
    hide ParseAll;
  }

  /**
    What a round does to the cloud: a pool appears only if there was none and the replicas can be spread over the
    zones; an existing pool changes only by the one request that a running pool is sent.
   */
  lemma ReconcileTouches(spec: PoolSpec, s: State, input: Input)
    ensures var (s', r) := Reconcile(spec, s, input);
      && (s.pool.None? ==>
            (s'.pool.Some? <==>
               && !input.describeFails && !input.fault.FailsBefore? && spec.owner.refName == spec.name
               && (IsRegional(RegionName(spec.clusterLocation)) ==>
                     var zones := ZoneCount(Managed(spec));
                     spec.owner.replicas == Quotient(spec.owner.replicas, zones) * zones)))
      && (s.pool.Some? && s'.pool != s.pool ==>
            && ReadsAll(s, input) && s.pool.value.status == Running && |s'.sent| == |s.sent| + 1
            && s'.pool == Some(ApplyMutation(s'.sent[|s.sent|].mutation, s.pool.value)))
      && (s'.sent != s.sent ==>
            && ReadsAll(s, input) && s.pool.value.status == Running && !AsWished(spec, s.pool.value)
            && s'.sent == s.sent + [Sent(NextMutation(spec, s.pool.value).mutation, input.fault)])
  {
    hide ParseAll, ApplyMutation, NextMutation, Created, AsWished;
    if s.pool.Some? { RestIffAsWished(spec, s.pool.value); }
  }

  /**
    A delete asks for deletion exactly where the pool is neither busy nor on its way out, and touches only its status.
   */
  lemma DeleteTouches(s: State, input: Input)
    ensures var (s', r) := Delete(s, input);
      && s'.sent == s.sent && s'.finalizer == s.finalizer && (s'.pool.Some? <==> s.pool.Some?)
      && (s.pool.Some? ==> s'.pool.value == s.pool.value.(status := s'.pool.value.status))
      && (s'.pool != s.pool <==>
            && !input.describeFails && s.pool.Some? && !input.fault.FailsBefore?
            && s.pool.value.status !in {Provisioning, Reconciling, Stopping})
      && (s'.pool != s.pool ==> s'.pool.value.status == Stopping)
      && (s'.pool != s.pool && input.fault.Works? ==>
            IsTrue(s'.conditions, Deleting) && !IsTrue(s'.conditions, Ready) && !IsTrue(s'.conditions, ResourceReady))
  {
  }

  predicate AsksToDelete(s: State, input: Input) {
    !input.describeFails && s.pool.Some? && s.pool.value.status !in {Provisioning, Reconciling, Stopping}
  }

  function Retried(input: Input): Result { if input.refused then Requeue else Errored }

  /**
    A failing GKE call, be it the describe or the one request of the round, is retried without an error exactly if its
    code is failed-precondition.
   */
  lemma RefusalIsRetried(spec: PoolSpec, s: State, input: Input)
    ensures var r, r' := ReconcileNormal(spec, s, input).1, ReconcileDelete(s, input).1;
      && r != FailedPrecondition && r' != FailedPrecondition
      && (input.describeFails ==> r == Retried(input) && r' == Retried(input))
      && (!input.fault.Works? && ReconcileNormal(spec, s, input).0.sent != s.sent ==> r == Retried(input))
      && (!input.fault.Works? && AsksToDelete(s, input) ==> r' == Retried(input))
  {
    hide ReconcileBody, Delete;
    BodyFails(spec, s.(finalizer := true), input);
    DeleteFails(s, input);
  }

  lemma BodyFails(spec: PoolSpec, s: State, input: Input)
    ensures var (s', r) := ReconcileBody(spec, s, input);
      && (input.describeFails ==> r == ApiError(input))
      && (s'.sent != s.sent && !input.fault.Works? ==> r == ApiError(input))
  {
    hide ParseAll, UpdateRunning, Create;
    CreateFails(spec, s, input);
    if ReadsAll(s, input) {
      var ids := ParseAll(input.instances.value).value;
      UpdateFails(spec, s.(providerIds := ids, replicas := |ids|), input);
    }
  }

  lemma CreateFails(spec: PoolSpec, s: State, input: Input)
    ensures Create(spec, s, input).0.sent == s.sent
  {
    hide Preflight, Created;
  }

  lemma UpdateFails(spec: PoolSpec, s: State, input: Input)
    requires s.pool.Some?
    ensures var (s', r) := UpdateRunning(spec, s, input);
      s'.sent != s.sent && !input.fault.Works? ==> r == ApiError(input)
  {
    hide NextMutation, ApplyMutation;
  }

  lemma DeleteFails(s: State, input: Input)
    ensures var r := Delete(s, input).1;
      input.describeFails || (!input.fault.Works? && AsksToDelete(s, input)) ==> r == ApiError(input)
  {
  }

  // ----- runs -----

  /** Before a round the pool may have moved on to any status, or be gone; its other fields change only by requests. */
  datatype Move = Move(status: Option<PoolStatus>, deleting: bool, input: Input)

  function Seen(s: State, status: Option<PoolStatus>): State {
    if s.pool.None? || status.None? then s.(pool := None) else s.(pool := Some(s.pool.value.(status := status.value)))
  }

  function Step(spec: PoolSpec, s: State, m: Move): (State, Result) {
    if m.deleting then ReconcileDelete(Seen(s, m.status), m.input)
    else ReconcileNormal(spec, Seen(s, m.status), m.input)
  }

  ghost function Run(spec: PoolSpec, s: State, moves: seq<Move>): State {
    if moves == [] then s else Step(spec, Run(spec, s, moves[..|moves| - 1]), moves[|moves| - 1]).0
  }

  /** Status.Ready after every round of every run, whatever was assigned on the way. */
  lemma ReadyAfterEveryRound(spec: PoolSpec, s: State, moves: seq<Move>)
    requires moves != []
    ensures ReadyMatches(Run(spec, s, moves))
  {
    hide ReconcileBody, DeleteBody;
  }

  /** Along every run that starts guarded, whatever fails, a pool exists only while the finalizer is there. */
  lemma {:induction false} FinalizerGuardsPool(spec: PoolSpec, s: State, moves: seq<Move>)
    requires s.pool.Some? ==> s.finalizer
    ensures Run(spec, s, moves).pool.Some? ==> Run(spec, s, moves).finalizer
    decreases |moves|
  {
    hide Step;
    if moves != [] {
      FinalizerGuardsPool(spec, s, moves[..|moves| - 1]);
      StepGuards(spec, Run(spec, s, moves[..|moves| - 1]), moves[|moves| - 1]);
    }
  }

  lemma StepGuards(spec: PoolSpec, s: State, m: Move)
    requires s.pool.Some? ==> s.finalizer
    ensures Step(spec, s, m).0.pool.Some? ==> Step(spec, s, m).0.finalizer
  {
    hide ReconcileBody, Delete, Created;
    ReconcileKeepsFinalizer(spec, Seen(s, m.status).(finalizer := true), m.input);
    DeleteTouches(Seen(s, m.status), m.input);
    if Seen(s, m.status).finalizer { FinalizerGoesIff(Seen(s, m.status), m.input); }
  }

  lemma ReconcileKeepsFinalizer(spec: PoolSpec, s: State, input: Input)
    ensures ReconcileBody(spec, s, input).0.finalizer == s.finalizer
  {
    hide ParseAll, NextMutation, ApplyMutation, Created;
  }

  /** A round that reaches the comparisons and whose request, if any, succeeds. */
  predicate Clean(m: Move) {
    && !m.deleting && m.status == Some(Running) && !m.input.describeFails && m.input.fault.Works?
    && m.input.instances.Some? && ParseAll(m.input.instances.value).Some?
  }

  function CleanRounds(moves: seq<Move>): nat {
    if moves == [] then 0 else CleanRounds(moves[..|moves| - 1]) + (if Clean(moves[|moves| - 1]) then 1 else 0)
  }

  /** The requests that took effect. */
  function Effective(sent: seq<Sent>): nat {
    if sent == [] then 0 else Effective(sent[..|sent| - 1]) + (if sent[|sent| - 1].fault.FailsBefore? then 0 else 1)
  }

  ghost predicate KeepsPool(moves: seq<Move>) { forall m :: m in moves ==> !m.deleting && m.status.Some? }

  ghost predicate SteadyState(spec: PoolSpec, s: State) { s.pool.Some? && Steady(spec, s.pool.value) }

  lemma StatusAside(spec: PoolSpec, pool: NodePool, status: PoolStatus)
    ensures Steady(spec, pool.(status := status)) == Steady(spec, pool)
    ensures Rank(spec, pool.(status := status)) == Rank(spec, pool)
    ensures NextMutation(spec, pool.(status := status)) == NextMutation(spec, pool)
  {
  }

  lemma EffectiveAppend(sent: seq<Sent>, x: Sent)
    ensures Effective(sent + [x]) == Effective(sent) + (if x.fault.FailsBefore? then 0 else 1)
  {
    assert (sent + [x])[..|sent + [x]| - 1] == sent;
  }

  /** What a round that ends without a request leaves behind. */
  ghost predicate AtRest(s: State, r: Result) {
    && r == Finished && s.ready && IsTrue(s.conditions, Ready) && IsTrue(s.conditions, ResourceReady)
    && !IsTrue(s.conditions, Updating) && Updating in s.conditions && s.replicas == |s.providerIds|
  }

  lemma UpdateKeeps(spec: PoolSpec, s: State, input: Input)
    requires SteadyState(spec, s)
    ensures var (s', r) := UpdateRunning(spec, s, input); var rank := Rank(spec, s.pool.value);
      && SteadyState(spec, s') && Rank(spec, s'.pool.value) + Effective(s'.sent) <= rank + Effective(s.sent)
      && Rank(spec, s'.pool.value) <= rank && |s.sent| <= |s'.sent| <= |s.sent| + 1
      && (input.fault.Works? && rank > 0 ==> Rank(spec, s'.pool.value) < rank)
      && (rank == 0 ==> s'.sent == s.sent && s'.pool == s.pool && AtRest(SetReadyFromConditions(s'), r))
  {
    hide Steady, NextMutation, Rank, ApplyMutation, Effective;
    MutationDescends(spec, s.pool.value);
    var next := NextMutation(spec, s.pool.value);
    if next.Send? { EffectiveAppend(s.sent, Sent(next.mutation, input.fault)); }
  }

  lemma RoundKeeps(spec: PoolSpec, s: State, m: Move)
    requires SteadyState(spec, s) && !m.deleting && m.status.Some?
    ensures var (s', r) := Step(spec, s, m); var rank := Rank(spec, s.pool.value);
      && SteadyState(spec, s') && Rank(spec, s'.pool.value) + Effective(s'.sent) <= rank + Effective(s.sent)
      && Rank(spec, s'.pool.value) <= rank && |s.sent| <= |s'.sent| <= |s.sent| + 1
      && (Clean(m) && rank > 0 ==> Rank(spec, s'.pool.value) < rank)
      && (Clean(m) && rank == 0 ==> s'.sent == s.sent && s'.pool == Seen(s, m.status).pool && AtRest(s', r))
  {
    hide Steady, Rank, Effective, UpdateRunning, NextMutation, ParseAll;
    StatusAside(spec, s.pool.value, m.status.value);
    var s1 := Seen(s, m.status);
    if !m.input.describeFails && m.input.instances.Some? && ParseAll(m.input.instances.value).Some? {
      var ids := ParseAll(m.input.instances.value).value;
      UpdateKeeps(spec, s1.(providerIds := ids, replicas := |ids|, finalizer := true), m.input);
    }
  }

  lemma {:induction false} RunKeeps(spec: PoolSpec, s: State, moves: seq<Move>)
    requires SteadyState(spec, s) && KeepsPool(moves)
    ensures var s' := Run(spec, s, moves); var rank := Rank(spec, s.pool.value);
      && SteadyState(spec, s') && Rank(spec, s'.pool.value) + Effective(s'.sent) <= rank + Effective(s.sent)
      && (Rank(spec, s'.pool.value) == 0 || Rank(spec, s'.pool.value) + CleanRounds(moves) <= rank)
      && |s'.sent| <= |s.sent| + |moves|
  {
    hide Steady, Rank, Effective, Step, Clean;
    if moves != [] {
      var before, last := moves[..|moves| - 1], moves[|moves| - 1];
      assert last in moves;
      RunKeeps(spec, s, before);
      RoundKeeps(spec, Run(spec, s, before), last);
    }
  }

  /**
    Convergence: on a RUNNING pool each round sends at most one request, at most three of them take
    effect in all (a fourth if the pool had no configuration and tags are wanted), and once as many
    clean rounds have passed, every further clean round sends nothing, reports the pool ready and up to date, and
    leaves it as wished in every compared field, its size included.
   */
  lemma Converges(spec: PoolSpec, s: State, moves: seq<Move>, last: Move)
    requires SteadyState(spec, s) && s.sent == [] && KeepsPool(moves)
    requires CleanRounds(moves) >= (if s.pool.value.config.None? && spec.tags.Some? then 4 else 3) && Clean(last)
    ensures var s1 := Run(spec, s, moves); var (s2, r) := Step(spec, s1, last);
      && Effective(s1.sent) <= (if s.pool.value.config.None? && spec.tags.Some? then 4 else 3)
      && |s1.sent| <= |moves|
      && s2.sent == s1.sent && AtRest(s2, r)
      && s2.pool.Some? && NextMutation(spec, s2.pool.value) == Nothing && AsWished(spec, s2.pool.value)
  {
    hide AsWished, Steady, Step, ParseAll, NextMutation, NeedsConfig;
    RunKeeps(spec, s, moves);
    var s1 := Run(spec, s, moves);
    RoundKeeps(spec, s1, last);
    StatusAside(spec, s1.pool.value, Running);
    var s2 := Step(spec, s1, last).0;
    MutationDescends(spec, s2.pool.value);
    RestIffAsWished(spec, s2.pool.value);
  }

  // ----- the condition is exact -----

  ghost predicate UnsteadyState(spec: PoolSpec, s: State) { s.pool.Some? && Unsteady(spec, s.pool.value) }

  lemma UnsteadyRound(spec: PoolSpec, s: State, m: Move)
    requires UnsteadyState(spec, s) && !m.deleting && m.status.Some?
    ensures UnsteadyState(spec, Step(spec, s, m).0)
    ensures Clean(m) ==> var (s', r) := Step(spec, s, m); !AtRest(s', r) && (|s'.sent| == |s.sent| + 1 || r == Panicked)
  {
    hide Unsteady, NextMutation, ParseAll, ApplyMutation;
    UnsteadyStatus(spec, s.pool.value, m.status.value);
    UnsteadyGoesOn(spec, s.pool.value.(status := m.status.value));
  }

  lemma UnsteadyStatus(spec: PoolSpec, pool: NodePool, status: PoolStatus)
    ensures Unsteady(spec, pool.(status := status)) == Unsteady(spec, pool)
  {
  }

  /**
    The condition of Converges is exact: without it no clean round of any run comes to rest; each sends a request or
    panics.
   */
  lemma {:induction false} NeverRests(spec: PoolSpec, s: State, moves: seq<Move>, last: Move)
    requires UnsteadyState(spec, s) && KeepsPool(moves) && Clean(last)
    ensures UnsteadyState(spec, Run(spec, s, moves))
    ensures var s1 := Run(spec, s, moves); var (s2, r) := Step(spec, s1, last);
      !AtRest(s2, r) && (|s2.sent| == |s1.sent| + 1 || r == Panicked)
    decreases |moves|
  {
    hide UnsteadyState, Step, ParseAll;
    if moves != [] {
      var before, m := moves[..|moves| - 1], moves[|moves| - 1];
      assert m in moves;
      NeverRests(spec, s, before, last);
      UnsteadyRound(spec, Run(spec, s, before), m);
    }
    UnsteadyRound(spec, Run(spec, s, moves), last);
  }
}
