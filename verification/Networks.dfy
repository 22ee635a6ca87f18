/**
  The network service (cloud/services/compute/networks/reconcile.go) of any number of clusters that
  share one project.  Rounds of different clusters interleave at every call, and any call can fail.
 */
module Networks {
  import opened CloudApi

  datatype NetKey = NetworkKey(name: string) | RouterKey(region: string, name: string)

  datatype NetResource = Network(description: string) | Router(description: string, network: NetKey)

  type Store = map<NetKey, NetResource>

  datatype Cluster = Cluster(name: string, region: string, networkName: string, sharedVpc: bool)

  /** Where a round stands: the call it makes next, or its result. */
  datatype Pc =
    | Idle(ok: bool)
    | GetNetwork | InsertNetwork | RegetNetwork | GetRouter | InsertRouter | RegetRouter
    | LookNetwork | LookRouter | DropRouter | DropNetwork

  datatype Actor = Actor(pc: Pc, selfLink: Option<NetKey>, router: Option<NetKey>)

  function NetworkOf(cl: Cluster): NetKey { NetworkKey(cl.networkName) }

  function RouterOf(cl: Cluster): NetKey { RouterKey(cl.region, cl.networkName + "-router") }

  predicate Owns(cl: Cluster, store: Store, k: NetKey) {
    k in store && store[k].description == ClusterTagKey(cl.name)
  }

  // ----- one round, call by call -----

  function Begin(cl: Cluster, a: Actor, deleting: bool): Actor {
    if !deleting then a.(pc := GetNetwork)
    else if cl.sharedVpc then Actor(Idle(true), None, None)
    else a.(pc := LookNetwork)
  }

  function Fail(a: Actor): Actor { a.(pc := Idle(false)) }

  function SeenNetwork(cl: Cluster, a: Actor, network: NetResource): Actor {
    if network.description == ClusterTagKey(cl.name) then a.(pc := GetRouter)
    else a.(pc := Idle(true), selfLink := Some(NetworkOf(cl)))
  }

  function SeenRouter(cl: Cluster, a: Actor): Actor {
    Actor(Idle(true), Some(NetworkOf(cl)), Some(RouterOf(cl)))
  }

  /** The outcome of a request that, where it takes effect, leaves `applied` behind. */
  function Mutate(a: Actor, store: Store, applied: Store, fault: Fault, next: Actor): (Actor, Store) {
    match fault
    case Works => (next, applied)
    case FailsBefore => (Fail(a), store)
    case FailsAfter => (Fail(a), applied)
  }

  function Call(cl: Cluster, a: Actor, store: Store, fault: Fault): (Actor, Store) {
    var net, router := NetworkOf(cl), RouterOf(cl);
    match a.pc
    case Idle(_) => (a, store)
    case GetNetwork =>
      if !fault.Works? then (Fail(a), store)
      else if net in store then (SeenNetwork(cl, a, store[net]), store)
      else if cl.sharedVpc then (Fail(a), store)
      else (a.(pc := InsertNetwork), store)
    case InsertNetwork =>
      if net in store then (Fail(a), store)
      else Mutate(a, store, store[net := Network(ClusterTagKey(cl.name))], fault, a.(pc := RegetNetwork))
    case RegetNetwork =>
      if !fault.Works? || net !in store then (Fail(a), store) else (SeenNetwork(cl, a, store[net]), store)
    case GetRouter =>
      if !fault.Works? then (Fail(a), store)
      else if router in store then (SeenRouter(cl, a), store)
      else if cl.sharedVpc then (Fail(a), store)
      else (a.(pc := InsertRouter), store)
    case InsertRouter =>
      if router in store then (Fail(a), store)
      else Mutate(a, store, store[router := Router(ClusterTagKey(cl.name), net)], fault, a.(pc := RegetRouter))
    case RegetRouter =>
      if !fault.Works? || router !in store then (Fail(a), store) else (SeenRouter(cl, a), store)
    case LookNetwork =>
      if !fault.Works? then (Fail(a), store)
      else if !Owns(cl, store, net) then (a.(pc := Idle(true)), store)
      else (a.(pc := LookRouter), store)
    case LookRouter =>
      if !fault.Works? then (Fail(a), store)
      else (a.(pc := if Owns(cl, store, router) then DropRouter else DropNetwork), store)
    case DropRouter => Mutate(a, store, store - {router}, fault, a.(pc := DropNetwork))
    case DropNetwork =>
      if net !in store then (Fail(a), store)
      else Mutate(a, store, store - {net}, fault, Actor(Idle(true), None, None))
  }

  // ----- what every call keeps -----

  /** What a cluster may rely on between its calls, whatever the others do. */
  ghost predicate Consistent(cl: Cluster, a: Actor, store: Store) {
    var net, router := NetworkOf(cl), RouterOf(cl);
    && (a.pc.GetRouter? || a.pc.InsertRouter? || a.pc.RegetRouter? ==> Owns(cl, store, net))
    && (a.pc.LookRouter? || a.pc.DropRouter? || a.pc.DropNetwork? ==> Owns(cl, store, net))
    && (a.pc.DropRouter? ==> Owns(cl, store, router))
    && (a.pc.DropNetwork? ==> !Owns(cl, store, router))
    && (cl.sharedVpc ==> a.pc.Idle? || a.pc.GetNetwork? || a.pc.GetRouter?)
  }

  /** The step touches only resources that carry this cluster's tag, and none at all in a shared VPC. */
  ghost predicate OwnStep(cl: Cluster, before: Store, after: Store) {
    && (forall k :: k in before && before[k].description != ClusterTagKey(cl.name) ==>
          k in after && after[k] == before[k])
    && (forall k :: k in before && k in after ==> after[k] == before[k])
    && (forall k :: k in after && k !in before ==> after[k].description == ClusterTagKey(cl.name))
    && (cl.sharedVpc ==> after == before)
  }

  /** A router of the cluster stands without its network. */
  predicate Stranded(cl: Cluster, store: Store) { Owns(cl, store, RouterOf(cl)) && !Owns(cl, store, NetworkOf(cl)) }

  lemma CallKeeps(cl: Cluster, a: Actor, store: Store, fault: Fault)
    requires Consistent(cl, a, store)
    ensures var (a', store') := Call(cl, a, store, fault);
      && Consistent(cl, a', store') && OwnStep(cl, store, store') && (Stranded(cl, store') ==> Stranded(cl, store))
      && (a.pc.LookNetwork? || a.pc.DropNetwork? ==> a'.pc == Idle(true) ==>
            !Owns(cl, store', NetworkOf(cl)) && (Owns(cl, store', RouterOf(cl)) <==> Stranded(cl, store)))
      && (a.pc.DropNetwork? && a'.pc == Idle(true) ==> a'.selfLink == None && a'.router == None)
      && (a.pc.GetNetwork? || a.pc.RegetNetwork? || a.pc.GetRouter? || a.pc.RegetRouter? ==> a'.pc == Idle(true) ==>
            && a'.selfLink == Some(NetworkOf(cl)) && NetworkOf(cl) in store'
            && (Owns(cl, store', NetworkOf(cl)) ==> a'.router == Some(RouterOf(cl)) && RouterOf(cl) in store'))
  {
  }

  lemma TagsDiffer(m: string, n: string)
    requires m != n
    ensures ClusterTagKey(m) != ClusterTagKey(n)
  {
    assert ClusterTagKey(m)[|"capg-cluster-"|..] == m && ClusterTagKey(n)[|"capg-cluster-"|..] == n;
  }

  lemma OthersKeep(cl: Cluster, a: Actor, other: Cluster, before: Store, after: Store)
    requires Consistent(cl, a, before) && other.name != cl.name && OwnStep(other, before, after)
    ensures Consistent(cl, a, after) && Stranded(cl, after) == Stranded(cl, before)
  {
    TagsDiffer(cl.name, other.name);
    forall k ensures Owns(cl, before, k) <==> Owns(cl, after, k) {
    }
  }

  // ----- interleavings -----

  /** A cluster starts a round, or makes its next call. */
  datatype Move = Start(name: string, deleting: bool) | Next(name: string, fault: Fault)

  datatype System = System(clusters: map<string, Cluster>, actors: map<string, Actor>, store: Store)

  ghost predicate WellNamed(s: System) {
    s.actors.Keys == s.clusters.Keys && forall n :: n in s.clusters ==> s.clusters[n].name == n
  }

  /** Every cluster is idle; the store may hold anything. */
  ghost predicate Initial(s: System) { WellNamed(s) && forall n :: n in s.clusters ==> s.actors[n].pc.Idle? }

  ghost predicate AllConsistent(s: System) {
    WellNamed(s) && forall n :: n in s.clusters ==> Consistent(s.clusters[n], s.actors[n], s.store)
  }

  ghost predicate Enabled(s: System, m: Move) {
    m.name in s.clusters && m.name in s.actors && (m.Start? ==> s.actors[m.name].pc.Idle?)
  }

  ghost function Do(s: System, m: Move): System
    requires Enabled(s, m)
  {
    var cl, a := s.clusters[m.name], s.actors[m.name];
    match m
    case Start(n, deleting) => s.(actors := s.actors[n := Begin(cl, a, deleting)])
    case Next(n, fault) =>
      var (a', store') := Call(cl, a, s.store, fault);
      s.(actors := s.actors[n := a'], store := store')
  }

  ghost predicate Path(s: System, moves: seq<Move>, s': System)
    decreases |moves|
  {
    if moves == [] then s == s'
    else Enabled(s, moves[0]) && Path(Do(s, moves[0]), moves[1..], s')
  }

  lemma MoveKeeps(s: System, m: Move)
    requires AllConsistent(s) && Enabled(s, m)
    ensures AllConsistent(Do(s, m)) && OwnStep(s.clusters[m.name], s.store, Do(s, m).store)
    ensures forall n :: n in s.clusters && Stranded(s.clusters[n], Do(s, m).store) ==> Stranded(s.clusters[n], s.store)
  {
    hide Call, Consistent, OwnStep, Stranded;
    var cl, a, s' := s.clusters[m.name], s.actors[m.name], Do(s, m);
    if m.Next? {
      CallKeeps(cl, a, s.store, m.fault);
      forall n | n in s.clusters && n != m.name
        ensures Consistent(s'.clusters[n], s'.actors[n], s'.store)
        ensures Stranded(s.clusters[n], s'.store) ==> Stranded(s.clusters[n], s.store)
      {
        OthersKeep(s.clusters[n], s.actors[n], cl, s.store, s'.store);
      }
    } else {
      BeginKeeps(cl, a, m.deleting, s.store);
    }
  }

  lemma BeginKeeps(cl: Cluster, a: Actor, deleting: bool, store: Store)
    requires Consistent(cl, a, store) && a.pc.Idle?
    ensures Consistent(cl, Begin(cl, a, deleting), store) && OwnStep(cl, store, store)
  {
  }

  lemma {:induction false} PathKeeps(s: System, moves: seq<Move>, s': System)
    requires AllConsistent(s) && Path(s, moves, s')
    ensures AllConsistent(s') && s'.clusters == s.clusters
    ensures forall n :: n in s.clusters && Stranded(s.clusters[n], s'.store) ==> Stranded(s.clusters[n], s.store)
    decreases |moves|
  {
    hide AllConsistent, Stranded;
    if moves != [] {
      MoveKeeps(s, moves[0]);
      PathKeeps(Do(s, moves[0]), moves[1..], s');
    }
  }

  /** Every call in every interleaving touches only what its own cluster tagged. */
  lemma NoInterference(s: System, moves: seq<Move>, s': System, m: Move)
    requires Initial(s) && Path(s, moves, s') && Enabled(s', m)
    ensures m.name in s.clusters && OwnStep(s.clusters[m.name], s'.store, Do(s', m).store)
  {
    hide Path, Consistent, Do, OwnStep;
    InitialIsConsistent(s);
    PathKeeps(s, moves, s');
    MoveKeeps(s', m);
  }

  ghost predicate DoneBy(moves: seq<Move>, name: string) { exists m :: m in moves && m.name == name }

  lemma NamedOf(s: System, n: string)
    requires AllConsistent(s) && n in s.clusters
    ensures s.clusters[n].name == n
  {
  }

  lemma {:induction false} ForeignStays(s: System, moves: seq<Move>, s': System, k: NetKey)
    requires AllConsistent(s) && Path(s, moves, s') && k in s.store
    requires forall n :: DoneBy(moves, n) ==> s.store[k].description != ClusterTagKey(n)
    ensures k in s'.store && s'.store[k] == s.store[k]
    decreases |moves|
  {
    hide AllConsistent, Call, Consistent;
    if moves != [] {
      var s1 := Do(s, moves[0]);
      assert DoneBy(moves, moves[0].name);
      MoveKeeps(s, moves[0]);
      NamedOf(s, moves[0].name);
      assert forall n :: DoneBy(moves[1..], n) ==> DoneBy(moves, n);
      ForeignStays(s1, moves[1..], s', k);
    }
  }

  /**
    However the rounds interleave, a resource survives every stretch in which the cluster it is tagged
    for makes no move; one tagged for no cluster survives for ever.
   */
  lemma OnlyTheOwnerDeletes(s: System, moves: seq<Move>, s1: System, more: seq<Move>, s2: System, k: NetKey)
    requires Initial(s) && Path(s, moves, s1) && Path(s1, more, s2) && k in s1.store
    requires forall n :: DoneBy(more, n) ==> s1.store[k].description != ClusterTagKey(n)
    ensures k in s2.store && s2.store[k] == s1.store[k]
  {
    hide Path, Consistent, DoneBy;
    InitialIsConsistent(s);
    PathKeeps(s, moves, s1);
    ForeignStays(s1, more, s2, k);
  }

  lemma InitialIsConsistent(s: System)
    requires Initial(s)
    ensures AllConsistent(s)
  {
  }

  /**
    A Delete that returns nil leaves no network of its cluster behind, and a router if and only if it stood there
    without its network; and no run strands a router that was not stranded at the start, whatever fails.
   */
  lemma DeleteLeavesNothing(s: System, moves: seq<Move>, s': System, name: string, fault: Fault)
    requires Initial(s) && Path(s, moves, s') && name in s'.clusters && name in s'.actors
    requires s'.actors[name].pc.LookNetwork? || s'.actors[name].pc.DropNetwork?
    requires Do(s', Next(name, fault)).actors[name].pc == Idle(true)
    ensures var cl, store := s'.clusters[name], Do(s', Next(name, fault)).store;
      && !Owns(cl, store, NetworkOf(cl)) && (Owns(cl, store, RouterOf(cl)) <==> Stranded(cl, s'.store))
      && (Stranded(cl, s'.store) ==> Stranded(cl, s.store))
  {
    hide Path, Consistent, Call, Owns, Stranded;
    InitialIsConsistent(s);
    PathKeeps(s, moves, s');
    CallKeeps(s'.clusters[name], s'.actors[name], s'.store, fault);
  }

  /** Such a router does survive: the Delete returns nil at the missing network. */
  lemma StrandedRouterStays(cl: Cluster, a: Actor, store: Store)
    requires a.pc.LookNetwork? && Stranded(cl, store)
    ensures var (a', store') := Call(cl, a, store, Works);
      a'.pc == Idle(true) && store' == store && Owns(cl, store', RouterOf(cl))
  {
  }
}
