/**
  The load balancer along whole histories of a GCPCluster: rounds of the controller, faulty at every call, with the
  other services at work in between and any admitted edits of the spec.
 */
module GCPClusterHistories {
  import opened CloudApi
  import opened LoadBalancerSpec
  import opened LoadBalancerInvariant
  import opened LoadBalancerChains
  import opened LoadBalancerRuns
  import opened GCPClusterAdmission
  import opened GCPClusterController
  import opened GCPClusterInvariant

  // ----- histories -----

  ghost function ZonesIn(moves: seq<Move>): set<string> {
    if moves == [] then {}
    else
      ZonesIn(moves[..|moves| - 1]) +
      (var m := moves[|moves| - 1]; if m.Work? && m.input.Normal? then set z | z in m.input.order else {})
  }

  /** The other services keep links intact in every round. */
  ghost predicate OthersKeep(moves: seq<Move>) {
    forall m :: m in moves && m.Work? && !m.input.Skipped? ==> OthersSound(m.input.others)
  }

  /** A history starts with a cloud that holds nothing of this cluster's balancer. */
  ghost predicate Beginning(name: string, s: StoredCluster, facts: Facts) {
    Clean(ConfigOf(name, s.spec, facts), s.w.cloud) && SubnetsTyped(s.w.cloud) && s.w.log == []
  }

  lemma BeginningIsIntact(name: string, s: StoredCluster, facts: Facts, zs: set<string>)
    requires Beginning(name, s, facts)
    ensures IntactRun(ConfigOf(name, s.spec, facts), s.w.cloud, zs, s.w)
  {
  }

  ghost predicate SameIdentity(a: ClusterSpec, b: ClusterSpec) {
    a.region == b.region && a.loadBalancer == b.loadBalancer
  }

  lemma IdentityIsKin(name: string, a: ClusterSpec, b: ClusterSpec, f: Facts, f': Facts)
    requires SameIdentity(a, b)
    ensures Kin(ConfigOf(name, a, f), ConfigOf(name, b, f')) && Kin(ConfigOf(name, b, f'), ConfigOf(name, a, f))
  {
  }

  lemma MoveIntact(name: string, cfg: Config, base: Cloud, zs: set<string>, s: StoredCluster, input: Input)
    requires PossibleInput(name, s.spec, s.w, input) && (!input.Skipped? ==> OthersSound(input.others))
    requires input.Normal? ==> forall z :: z in input.order ==> z in zs
    requires Clean(cfg, base) && IntactRun(cfg, base, zs, s.w)
    requires !input.Skipped? ==>
               Kin(cfg, ConfigOf(name, s.spec, input.facts)) && Kin(ConfigOf(name, s.spec, input.facts), cfg)
    ensures IntactRun(cfg, base, zs, ControllerRound(name, s.spec, s.w, input))
  {
    hide Clean, IntactRun, PossibleInput, OthersSound, Kin, ConfigOf;
    if !input.Skipped? {
      var cfg' := ConfigOf(name, s.spec, input.facts);
      KinClean(cfg, cfg', base);
      KinIntactRun(cfg, cfg', base, zs, s.w);
      RoundIntact(name, s.spec, base, zs, s.w, input);
      KinIntactRun(cfg', cfg, base, zs, ControllerRound(name, s.spec, s.w, input));
    }
  }

  lemma {:induction false} HistoryIntact(name: string, s: StoredCluster, moves: seq<Move>, facts: Facts, base: Cloud,
                                         zs: set<string>)
    requires PossibleHistory(name, s, moves) && OthersKeep(moves) && ZonesIn(moves) <= zs
    requires Clean(ConfigOf(name, s.spec, facts), base) && IntactRun(ConfigOf(name, s.spec, facts), base, zs, s.w)
    ensures var s' := History(name, s, moves);
      IntactRun(ConfigOf(name, s.spec, facts), base, zs, s'.w) && SameIdentity(s.spec, s'.spec)
    decreases |moves|
  {
    hide Clean, IntactRun, ControllerRound, PossibleInput, ReadyAfter, OthersSound, Kin;
    if moves != [] {
      var rest, last := moves[..|moves| - 1], moves[|moves| - 1];
      assert last in moves;
      HistoryIntact(name, s, rest, facts, base, zs);
      var before := History(name, s, rest);
      if last.Work? {
        if !last.input.Skipped? { IdentityIsKin(name, s.spec, before.spec, facts, last.input.facts); }
        MoveIntact(name, ConfigOf(name, s.spec, facts), base, zs, before, last.input);
      }
    }
  }

  /**
    Referential integrity after every single call of every history of a GCPCluster: faulty rounds, other services at
    work, and any admitted edits of the spec in between; nothing outside the balancer and the subnets changes.
   */
  lemma HistoryKeepsIntegrity(name: string, s: StoredCluster, moves: seq<Move>, facts: Facts)
    requires Beginning(name, s, facts) && PossibleHistory(name, s, moves) && OthersKeep(moves)
    ensures var log := History(name, s, moves).w.log;
      forall i :: 0 <= i < |log| ==>
        Integrity(log[i].cloud) && Outside(ConfigOf(name, s.spec, facts), s.w.cloud, log[i].cloud)
  {
    hide History, PossibleHistory, OthersKeep, Fits, Own;
    BeginningIsIntact(name, s, facts, ZonesIn(moves));
    HistoryIntact(name, s, moves, facts, s.w.cloud, ZonesIn(moves));
  }

  // ----- ready clusters are built -----

  lemma {:induction false} EarlierMoves(name: string, s: StoredCluster, moves: seq<Move>, i: nat)
    requires PossibleHistory(name, s, moves) && OthersKeep(moves) && i < |moves|
    ensures PossibleHistory(name, s, moves[..i]) && OthersKeep(moves[..i]) && ZonesIn(moves[..i]) <= ZonesIn(moves)
    ensures var before := History(name, s, moves[..i]);
      moves[i].Work? ==> PossibleInput(name, before.spec, before.w, moves[i].input)
    ensures moves[i].Work? && moves[i].input.Normal? ==> forall z :: z in moves[i].input.order ==> z in ZonesIn(moves)
    decreases |moves|
  {
    hide PossibleInput, Admitted, History, OthersSound;
    var rest := moves[..|moves| - 1];
    if i < |rest| {
      EarlierMoves(name, s, rest, i);
      assert rest[..i] == moves[..i];
    }
  }

  /** Every chain resource is there, and the host is the address. */
  ghost predicate Built(cfg: Config, w: World) { Wanted(cfg) <= w.cloud.Keys && HostSet(cfg, w) }

  lemma SettledIsBuilt(cfg: Config, base: Cloud, zs: set<string>, w: World, zones: seq<string>)
    requires Clean(cfg, base) && IntactRun(cfg, base, zs, w) && Settled(cfg, zones, w)
    ensures Built(cfg, w)
  {
    hide Clean, Intact, Sound;
    IntactIsSound(cfg, base, zs, w.cloud);
    SettledHost(cfg, Foreign(cfg, w.cloud), zs, w, zones);
  }

  /** The world in which the controller closes the round at move `i`. */
  ghost function AtClose(name: string, s: StoredCluster, moves: seq<Move>, i: nat): World
    requires i < |moves| && moves[i].Work? && moves[i].input.Normal?
  {
    var before, input := History(name, s, moves[..i]), moves[i].input;
    ReconcileNormal(name, before.spec, before.w.(net := Reload(before.w.net)), input.facts, input.order, input.others).w
  }

  lemma SuccessIsBuilt(name: string, s: StoredCluster, moves: seq<Move>, facts: Facts, i: nat)
    requires Beginning(name, s, facts) && PossibleHistory(name, s, moves) && OthersKeep(moves)
    requires SucceedsAt(name, s, moves, i)
    ensures Built(ConfigOf(name, s.spec, facts), AtClose(name, s, moves, i))
  {
    hide History, PossibleHistory, ReconcileNormal, Clean, IntactRun, Settled, PossibleStages, OthersSound;
    var cfg, zs, input := ConfigOf(name, s.spec, facts), ZonesIn(moves), moves[i].input;
    EarlierMoves(name, s, moves, i);
    BeginningIsIntact(name, s, facts, zs);
    HistoryIntact(name, s, moves[..i], facts, s.w.cloud, zs);
    var before := History(name, s, moves[..i]);
    var cfg' := ConfigOf(name, before.spec, input.facts);
    IdentityIsKin(name, s.spec, before.spec, facts, input.facts);
    KinClean(cfg, cfg', s.w.cloud);
    KinIntactRun(cfg, cfg', s.w.cloud, zs, before.w);
    ReloadIntact(cfg', s.w.cloud, zs, before.w);
    assert moves[i] in moves;
    NormalIntact(name, before.spec, s.w.cloud, zs, before.w.(net := Reload(before.w.net)), input);
    SettledIsBuilt(cfg', s.w.cloud, zs, AtClose(name, s, moves, i), input.order);
    KinBuilt(cfg', cfg, AtClose(name, s, moves, i));
  }

  lemma KinBuilt(cfg: Config, cfg': Config, w: World)
    requires Kin(cfg, cfg') && Built(cfg, w)
    ensures Built(cfg', w)
  {
    KinKeys(cfg, cfg');
  }

  /**
    A cluster becomes ready only by a round that left every chain resource of its balancer in the cloud and the
    control plane host equal to the address, in any history.
   */
  lemma ReadyMeansBuilt(name: string, s: StoredCluster, moves: seq<Move>, facts: Facts)
    requires Beginning(name, s, facts) && PossibleHistory(name, s, moves) && OthersKeep(moves)
    requires History(name, s, moves).ready && !s.ready
    ensures exists i ::
              SucceedsAt(name, s, moves, i) && Built(ConfigOf(name, s.spec, facts), AtClose(name, s, moves, i))
  {
    hide History, PossibleHistory, Built, AtClose, Succeeds, OthersKeep, Beginning;
    ReadyNeedsSuccess(name, s, moves);
    var i :| SucceedsAt(name, s, moves, i);
    SuccessIsBuilt(name, s, moves, facts, i);
  }

  // ----- deletion restores the cloud -----

  /** The round returned nil, closing writes included. */
  ghost predicate RoundReturned(name: string, s: StoredCluster, input: Input) {
    var w0 := s.w.(net := Reload(s.w.net));
    match input
    case Skipped => true
    case Normal(facts, zones, order, others) =>
      var r := ReconcileNormal(name, s.spec, w0, facts, order, others);
      CloseWith(w0, r.w, r.Done?, true).1
    case Deletion(facts, order, others) =>
      var r := ReconcileDelete(name, s.spec, w0, facts, order, others);
      CloseWith(w0, r.w, r.Done?, s.w.finalizer && !r.Done?).1
  }

  /** From here on nothing is built: edits, skipped rounds and deletions. */
  ghost predicate WindingDown(moves: seq<Move>) { forall m :: m in moves ==> m.Edit? || !m.input.Normal? }

  lemma BuildRecords(name: string, s: StoredCluster, base: Cloud, zs: set<string>, input: Input)
    requires input.Normal? && PossibleInput(name, s.spec, s.w, input) && OthersSound(input.others)
    requires zs == (set z | z in input.order) && RoundReturned(name, s, input)
    requires Clean(ConfigOf(name, s.spec, input.facts), base)
    requires IntactRun(ConfigOf(name, s.spec, input.facts), base, zs, s.w)
    ensures Recorded(ConfigOf(name, s.spec, input.facts), ControllerRound(name, s.spec, s.w, input))
  {
    hide Clean, Intact, ReconcileNormal, PossibleStages, OthersSound;
    var cfg, w0 := ConfigOf(name, s.spec, input.facts), s.w.(net := Reload(s.w.net));
    ReloadIntact(cfg, base, zs, s.w);
    NormalIntact(name, s.spec, base, zs, w0, input);
    var r := ReconcileNormal(name, s.spec, w0, input.facts, input.order, input.others);
    IntactRecords(cfg, base, zs, r.w, input.order);
    ClosedRecorded(cfg, w0, r.w, r.Done?, true);
  }

  lemma IntactRecords(cfg: Config, base: Cloud, zs: set<string>, w: World, zones: seq<string>)
    requires zs == (set z | z in zones) && Intact(cfg, base, zs, w.cloud) && Settled(cfg, zones, w)
    ensures Recorded(cfg, w)
  {
    forall z | GroupKey(cfg, z) in w.cloud ensures z in w.net.groups.GetOr(map[]) {
      assert Own(cfg, GroupKey(cfg, z));
    }
  }

  lemma ClosedRecorded(cfg: Config, before: World, after: World, ok: bool, finalizer: bool)
    requires Recorded(cfg, after)
    requires CloseWith(before, after, ok, finalizer).1 || Recorded(cfg, after.(net := before.net))
    ensures Recorded(cfg, CloseWith(before, after, ok, finalizer).0)
  {
  }

  lemma DeletionRecords(name: string, s: StoredCluster, base: Cloud, zs: set<string>, input: Input)
    requires input.Deletion? && PossibleInput(name, s.spec, s.w, input) && OthersSound(input.others)
    requires Clean(ConfigOf(name, s.spec, input.facts), base)
    requires IntactRun(ConfigOf(name, s.spec, input.facts), base, zs, s.w)
    requires Recorded(ConfigOf(name, s.spec, input.facts), s.w)
    ensures var cfg, w' := ConfigOf(name, s.spec, input.facts), ControllerRound(name, s.spec, s.w, input);
      && Recorded(cfg, w')
      && (RoundReturned(name, s, input) ==> forall k :: k in w'.cloud ==> !Own(cfg, k))
  {
    hide Clean, IntactRun, ReconcileDelete, PossibleStages, OthersSound, Own;
    var cfg, w0 := ConfigOf(name, s.spec, input.facts), s.w.(net := Reload(s.w.net));
    ReloadIntact(cfg, base, zs, s.w);
    ReloadRecorded(cfg, s.w);
    DeletionIntact(name, s.spec, base, zs, w0, input);
    var r := ReconcileDelete(name, s.spec, w0, input.facts, input.order, input.others);
    ClosedRecorded(cfg, w0, r.w, r.Done?, s.w.finalizer && !r.Done?);
  }

  lemma MoveRecords(name: string, cfg: Config, base: Cloud, zs: set<string>, s: StoredCluster, input: Input)
    requires input.Deletion? && PossibleInput(name, s.spec, s.w, input) && OthersSound(input.others)
    requires Clean(cfg, base) && IntactRun(cfg, base, zs, s.w) && Recorded(cfg, s.w)
    requires Kin(cfg, ConfigOf(name, s.spec, input.facts))
    ensures var w' := ControllerRound(name, s.spec, s.w, input);
      && Recorded(cfg, w')
      && (RoundReturned(name, s, input) ==> forall k :: k in w'.cloud ==> !Own(cfg, k))
  {
    hide Clean, IntactRun, PossibleInput, OthersSound, ConfigOf, Recorded, Own, ControllerRound, RoundReturned, Kin;
    var cfg' := ConfigOf(name, s.spec, input.facts);
    KinKeys(cfg, cfg');
    KinClean(cfg, cfg', base);
    KinIntactRun(cfg, cfg', base, zs, s.w);
    KinRecorded(cfg, cfg', s.w);
    DeletionRecords(name, s, base, zs, input);
    KinRecorded(cfg, cfg', ControllerRound(name, s.spec, s.w, input));
  }

  lemma {:induction false} WindingDownRecords(name: string, s: StoredCluster, moves: seq<Move>, facts: Facts,
                                              base: Cloud, zs: set<string>)
    requires PossibleHistory(name, s, moves) && OthersKeep(moves) && WindingDown(moves)
    requires Clean(ConfigOf(name, s.spec, facts), base) && IntactRun(ConfigOf(name, s.spec, facts), base, zs, s.w)
    requires Recorded(ConfigOf(name, s.spec, facts), s.w)
    ensures var s' := History(name, s, moves);
      && IntactRun(ConfigOf(name, s.spec, facts), base, zs, s'.w) && SameIdentity(s.spec, s'.spec)
      && Recorded(ConfigOf(name, s.spec, facts), s'.w)
    decreases |moves|
  {
    hide Clean, IntactRun, ControllerRound, PossibleInput, ReadyAfter, OthersSound, Kin, Recorded;
    if moves != [] {
      var rest, last := moves[..|moves| - 1], moves[|moves| - 1];
      assert last in moves;
      WindingDownRecords(name, s, rest, facts, base, zs);
      var before, cfg := History(name, s, rest), ConfigOf(name, s.spec, facts);
      if last.Work? {
        if !last.input.Skipped? { IdentityIsKin(name, s.spec, before.spec, facts, last.input.facts); }
        MoveIntact(name, cfg, base, zs, before, last.input);
        if last.input.Deletion? {
          MoveRecords(name, cfg, base, zs, before, last.input);
        } else {
          SkippedStays(name, before.spec, before.w, last.input);
        }
      }
    }
  }

  lemma SkippedStays(name: string, spec: ClusterSpec, w: World, input: Input)
    requires input.Skipped?
    ensures ControllerRound(name, spec, w, input) == w
  {
  }

  /** The same resources as in `base`, subnets aside. */
  ghost predicate Restored(base: Cloud, c: Cloud) {
    forall k: Key :: !k.kind.Subnetworks? ==> (k in c <==> k in base) && (k in c ==> c[k] == base[k])
  }

  lemma NothingOwnIsRestored(cfg: Config, base: Cloud, zs: set<string>, c: Cloud)
    requires Clean(cfg, base) && Intact(cfg, base, zs, c) && (forall k :: k in c ==> !Own(cfg, k))
    ensures Restored(base, c)
  {
    hide Own, Fits;
  }

  /** A Normal round that returned nil, after a history whose zones it covers. */
  ghost predicate BuiltLast(name: string, s: StoredCluster, moves: seq<Move>, build: Input) {
    && PossibleHistory(name, s, moves + [Work(build)]) && OthersKeep(moves + [Work(build)])
    && build.Normal? && RoundReturned(name, History(name, s, moves), build)
    && (forall z :: z in ZonesIn(moves) ==> z in build.order)
  }

  lemma AppendHistory(name: string, s: StoredCluster, moves: seq<Move>, input: Input)
    requires PossibleHistory(name, s, moves + [Work(input)]) && OthersKeep(moves + [Work(input)])
    ensures var s0, s1 := History(name, s, moves), History(name, s, moves + [Work(input)]);
      && PossibleHistory(name, s, moves) && OthersKeep(moves)
      && PossibleInput(name, s0.spec, s0.w, input) && (!input.Skipped? ==> OthersSound(input.others))
      && s1.spec == s0.spec && s1.w == ControllerRound(name, s0.spec, s0.w, input)
  {
    hide PossibleInput, ControllerRound, ReadyAfter, OthersSound, Admitted;
    assert (moves + [Work(input)])[..|moves + [Work(input)]| - 1] == moves;
    assert Work(input) in moves + [Work(input)];
    assert forall m :: m in moves ==> m in moves + [Work(input)];
  }

  lemma BuiltLastRecords(name: string, s: StoredCluster, moves: seq<Move>, facts: Facts, build: Input)
    requires Beginning(name, s, facts) && BuiltLast(name, s, moves, build)
    ensures var cfg, s1 := ConfigOf(name, s.spec, facts), History(name, s, moves + [Work(build)]);
      && IntactRun(cfg, s.w.cloud, (set z | z in build.order), s1.w)
      && Recorded(cfg, s1.w) && SameIdentity(s.spec, s1.spec)
  {
    hide History, PossibleHistory, OthersKeep, ControllerRound, RoundReturned, Clean, IntactRun, PossibleInput,
      OthersSound, Recorded, Kin;
    var cfg, base, zs := ConfigOf(name, s.spec, facts), s.w.cloud, set z | z in build.order;
    AppendHistory(name, s, moves, build);
    BeginningIsIntact(name, s, facts, zs);
    HistoryIntact(name, s, moves, facts, base, zs);
    var s0 := History(name, s, moves);
    var cfg' := ConfigOf(name, s0.spec, build.facts);
    IdentityIsKin(name, s.spec, s0.spec, facts, build.facts);
    MoveIntact(name, cfg, base, zs, s0, build);
    KinClean(cfg, cfg', base);
    KinIntactRun(cfg, cfg', base, zs, s0.w);
    BuildRecords(name, s0, base, zs, build);
    KinRecorded(cfg, cfg', ControllerRound(name, s0.spec, s0.w, build));
  }

  /**
    Delete inverts Reconcile along histories: after any history of faulty rounds and admitted edits whose last Normal
    round returned nil and covered all zones used, and any winding down with further edits, a Deletion round that
    returns nil leaves exactly the resources of the beginning, subnets aside.
   */
  lemma HistoryDeleteInverts(name: string, s: StoredCluster, moves: seq<Move>, facts: Facts, build: Input,
                             rest: seq<Move>, last: Input)
    requires Beginning(name, s, facts)
    ensures var s1 := History(name, s, moves + [Work(build)]); var s2 := History(name, s1, rest);
      && BuiltLast(name, s, moves, build) && PossibleHistory(name, s1, rest) && OthersKeep(rest) && WindingDown(rest)
      && last.Deletion? && PossibleInput(name, s2.spec, s2.w, last) && OthersSound(last.others)
      && RoundReturned(name, s2, last)
      ==> Restored(s.w.cloud, ControllerRound(name, s2.spec, s2.w, last).cloud)
  {
    hide History, PossibleHistory, OthersKeep, WindingDown, ControllerRound, RoundReturned, Clean, IntactRun,
      PossibleInput, OthersSound, Recorded, Kin, Restored;
    if !BuiltLast(name, s, moves, build) { return; }
    BuiltLastRecords(name, s, moves, facts, build);
    var s1 := History(name, s, moves + [Work(build)]);
    var s2 := History(name, s1, rest);
    if PossibleHistory(name, s1, rest) && OthersKeep(rest) && WindingDown(rest) && last.Deletion?
      && PossibleInput(name, s2.spec, s2.w, last) && OthersSound(last.others) && RoundReturned(name, s2, last)
    {
      var zs := set z | z in build.order;
      WoundDown(name, s.w.cloud, ConfigOf(name, s.spec, facts), zs, s.spec, s1, facts, rest, last);
    }
  }

  lemma WoundDown(name: string, base: Cloud, cfg: Config, zs: set<string>, spec: ClusterSpec, s1: StoredCluster,
                  facts: Facts, rest: seq<Move>, last: Input)
    requires cfg == ConfigOf(name, spec, facts) && SameIdentity(spec, s1.spec)
    requires Clean(cfg, base) && IntactRun(cfg, base, zs, s1.w) && Recorded(cfg, s1.w)
    requires PossibleHistory(name, s1, rest) && OthersKeep(rest) && WindingDown(rest) && last.Deletion?
    requires var s2 := History(name, s1, rest);
      PossibleInput(name, s2.spec, s2.w, last) && OthersSound(last.others) && RoundReturned(name, s2, last)
    ensures var s2 := History(name, s1, rest); Restored(base, ControllerRound(name, s2.spec, s2.w, last).cloud)
  {
    hide History, PossibleHistory, OthersKeep, WindingDown, ControllerRound, RoundReturned, Clean, Intact,
      PossibleInput, OthersSound, Recorded, Kin, Restored, Own;
    var cfg1, s2 := ConfigOf(name, s1.spec, facts), History(name, s1, rest);
    IdentityIsKin(name, spec, s1.spec, facts, facts);
    KinClean(cfg, cfg1, base);
    KinIntactRun(cfg, cfg1, base, zs, s1.w);
    KinRecorded(cfg, cfg1, s1.w);
    WindingDownRecords(name, s1, rest, facts, base, zs);
    IdentityIsKin(name, s1.spec, s2.spec, facts, last.facts);
    MoveIntact(name, cfg1, base, zs, s2, last);
    MoveRecords(name, cfg1, base, zs, s2, last);
    NothingOwnIsRestored(cfg1, base, zs, ControllerRound(name, s2.spec, s2.w, last).cloud);
  }

  lemma DeletionSparesUnrecorded(name: string, s: StoredCluster, base: Cloud, zs: set<string>, input: Input, z: string)
    requires input.Deletion? && PossibleInput(name, s.spec, s.w, input) && OthersSound(input.others)
    requires Clean(ConfigOf(name, s.spec, input.facts), base)
    requires IntactRun(ConfigOf(name, s.spec, input.facts), base, zs, s.w)
    requires var cfg := ConfigOf(name, s.spec, input.facts);
      GroupKey(cfg, z) in s.w.cloud && z !in s.w.net.groups.GetOr(map[])
    ensures GroupKey(ConfigOf(name, s.spec, input.facts), z) in ControllerRound(name, s.spec, s.w, input).cloud
  {
    hide Clean, IntactRun, RunStages, DeleteAll, PossibleStages, StageKeeps;
    var cfg, w0 := ConfigOf(name, s.spec, input.facts), s.w.(net := Reload(s.w.net));
    ReloadIntact(cfg, base, zs, s.w);
    DeleteIntact(cfg, base, zs, w0, input.order);
    DeleteAllRecords(cfg, w0, input.order);
    assert IsGroup(cfg, GroupKey(cfg, z)) && z !in input.order;
    var (w1, ok) := DeleteAll(cfg, w0, input.order);
    if ok { StagesIntact(cfg, base, zs, w1, TeardownOrder(input.others)); }
  }

  /**
    After any history, a Deletion round that returns nil leaves exactly the resources of the beginning, subnets
    aside, if and only if every instance group of the cluster was recorded before it.
   */
  lemma HistoryDeleteRestoresIff(name: string, s: StoredCluster, moves: seq<Move>, facts: Facts, last: Input)
    requires Beginning(name, s, facts)
    requires PossibleHistory(name, s, moves + [Work(last)]) && OthersKeep(moves + [Work(last)])
    ensures var s0, s1 := History(name, s, moves), History(name, s, moves + [Work(last)]);
      last.Deletion? && RoundReturned(name, s0, last) ==>
        (Restored(s.w.cloud, s1.w.cloud) <==> Recorded(ConfigOf(name, s.spec, facts), s0.w))
  {
    hide History, PossibleHistory, OthersKeep, ControllerRound, RoundReturned, Clean, IntactRun, PossibleInput,
      OthersSound, Kin, Own;
    var cfg, base, zs := ConfigOf(name, s.spec, facts), s.w.cloud, ZonesIn(moves);
    AppendHistory(name, s, moves, last);
    BeginningIsIntact(name, s, facts, zs);
    HistoryIntact(name, s, moves, facts, base, zs);
    var s0 := History(name, s, moves);
    if last.Deletion? && RoundReturned(name, s0, last) {
      IdentityIsKin(name, s.spec, s0.spec, facts, last.facts);
      MoveIntact(name, cfg, base, zs, s0, last);
      if Recorded(cfg, s0.w) {
        MoveRecords(name, cfg, base, zs, s0, last);
        IntactRestored(cfg, base, zs, ControllerRound(name, s0.spec, s0.w, last));
      } else {
        var z :| GroupKey(cfg, z) in s0.w.cloud && z !in s0.w.net.groups.GetOr(map[]);
        var cfg' := ConfigOf(name, s0.spec, last.facts);
        KinKeys(cfg, cfg');
        KinClean(cfg, cfg', base);
        KinIntactRun(cfg, cfg', base, zs, s0.w);
        DeletionSparesUnrecorded(name, s0, base, zs, last, z);
        GroupNotThere(cfg, base, z);
      }
    }
  }

  lemma IntactRestored(cfg: Config, base: Cloud, zs: set<string>, w: World)
    requires Clean(cfg, base) && IntactRun(cfg, base, zs, w) && (forall k :: k in w.cloud ==> !Own(cfg, k))
    ensures Restored(base, w.cloud)
  {
    hide Own, Intact, Clean, Restored;
    NothingOwnIsRestored(cfg, base, zs, w.cloud);
  }

  lemma GroupNotThere(cfg: Config, base: Cloud, z: string)
    requires Clean(cfg, base)
    ensures GroupKey(cfg, z) !in base && GroupKey(cfg, z).kind.InstanceGroups?
  {
    assert Own(cfg, GroupKey(cfg, z));
  }
}
