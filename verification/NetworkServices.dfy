/**
  The network and subnet services as objects.  The network service is proved equal to its call-by-call machine in
  Networks; the subnet service is specified by what it does to the store.
 */
module NetworkServices {
  import opened CloudApi
  import opened Networks

  // ----- the network service -----

  function Rank(pc: Pc): nat {
    match pc
    case Idle(_) => 0
    case RegetRouter => 1
    case InsertRouter => 2
    case GetRouter => 3
    case RegetNetwork => 4
    case InsertNetwork => 5
    case GetNetwork => 6
    case DropNetwork => 1
    case DropRouter => 2
    case LookRouter => 3
    case LookNetwork => 4
  }

  function First(faults: seq<Fault>): Fault { if faults == [] then Works else faults[0] }

  function Later(faults: seq<Fault>): seq<Fault> { if faults == [] then [] else faults[1..] }

  datatype Local = Local(actor: Actor, store: Store, faults: seq<Fault>)

  /** Runs the machine of Networks to the end of the round. */
  function Finish(cl: Cluster, l: Local): Local
    decreases Rank(l.actor.pc)
  {
    if l.actor.pc.Idle? then l
    else
      var (a, store) := Networks.Call(cl, l.actor, l.store, First(l.faults));
      Finish(cl, Local(a, store, Later(l.faults)))
  }

  class NetworkService {
    const cl: Cluster
    var store: Store
    var selfLink: Option<NetKey>
    var router: Option<NetKey>
    var faults: seq<Fault>

    constructor (cl: Cluster, l: Local)
      ensures this.cl == cl && At(l.actor.pc) == l
    {
      this.cl := cl;
      store, selfLink, router, faults := l.store, l.actor.selfLink, l.actor.router, l.faults;
    }

    /** The state of the object in a round that stands at `pc`. */
    ghost function At(pc: Pc): Local
      reads this
    {
      Local(Actor(pc, selfLink, router), store, faults)
    }

    method Get(k: NetKey) returns (err: Option<Error>, found: Option<NetResource>)
      modifies this`faults
      ensures faults == Later(old(faults))
      ensures !First(old(faults)).Works? ==> err == Some(Unavailable)
      ensures First(old(faults)).Works? && k !in store ==> err == Some(NotFound)
      ensures First(old(faults)).Works? && k in store ==> err == None
      ensures found == if err == None then Some(store[k]) else None
    {
      var fault := First(faults);
      faults := Later(faults);
      found := None;
      if !fault.Works? {
        err := Some(Unavailable);
      } else if k !in store {
        err := Some(NotFound);
      } else {
        err, found := None, Some(store[k]);
      }
    }

    method Insert(k: NetKey, r: NetResource) returns (err: Option<Error>)
      modifies this`faults, this`store
      ensures faults == Later(old(faults))
      ensures k in old(store) ==> err != None && store == old(store)
      ensures k !in old(store) ==> (err == None <==> First(old(faults)).Works?)
      ensures k !in old(store) ==> store == if First(old(faults)).FailsBefore? then old(store) else old(store)[k := r]
    {
      var fault := First(faults);
      faults := Later(faults);
      err := if !fault.Works? then Some(Unavailable) else if k in store then Some(AlreadyExists) else None;
      if k !in store && !fault.FailsBefore? {
        store := store[k := r];
      }
    }

    method Delete(k: NetKey) returns (err: Option<Error>)
      modifies this`faults, this`store
      ensures faults == Later(old(faults))
      ensures err == if !First(old(faults)).Works? then Some(Unavailable)
                     else if k in old(store) then None else Some(NotFound)
      ensures store == if First(old(faults)).FailsBefore? then old(store) else old(store) - {k}
    {
      var fault := First(faults);
      faults := Later(faults);
      err := if !fault.Works? then Some(Unavailable) else if k in store then None else Some(NotFound);
      if !fault.FailsBefore? {
        store := store - {k};
      }
    }

    method CreateOrGetNetwork() returns (err: Option<Error>, network: Option<NetResource>)
      modifies this`faults, this`store
      ensures err == None ==> network.Some?
      ensures Finish(cl, old(At(GetNetwork))) ==
              Finish(cl, if err != None then At(Idle(false))
                         else At(GetNetwork).(actor := SeenNetwork(cl, At(GetNetwork).actor, network.value)))
    {
      var key := NetworkOf(cl);
      err, network := Get(key);
      if err != None {
        if err.value != NotFound || cl.sharedVpc {
          return;
        }
        assert Finish(cl, old(At(GetNetwork))) == Finish(cl, At(InsertNetwork));
        label before:
        err := Insert(key, Network(ClusterTagKey(cl.name)));
        if err != None {
          return;
        }
        assert Finish(cl, old@before(At(InsertNetwork))) == Finish(cl, At(RegetNetwork));
        err, network := Get(key);
      }
    }

    method CreateOrGetRouter() returns (err: Option<Error>, found: Option<NetResource>)
      modifies this`faults, this`store
      ensures Finish(cl, old(At(GetRouter))) ==
              Finish(cl, if err != None then At(Idle(false))
                         else At(GetRouter).(actor := SeenRouter(cl, At(GetRouter).actor)))
    {
      var key := RouterOf(cl);
      err, found := Get(key);
      if err != None {
        if err.value != NotFound || cl.sharedVpc {
          return;
        }
        assert Finish(cl, old(At(GetRouter))) == Finish(cl, At(InsertRouter));
        label before:
        err := Insert(key, Router(ClusterTagKey(cl.name), NetworkOf(cl)));
        if err != None {
          return;
        }
        assert Finish(cl, old@before(At(InsertRouter))) == Finish(cl, At(RegetRouter));
        err, found := Get(key);
      }
    }

    method ReconcileNetwork() returns (ok: bool)
      modifies this
      ensures At(Idle(ok)) == Finish(cl, old(At(GetNetwork)))
    {
      var err, network := CreateOrGetNetwork();
      if err != None {
        return false;
      }
      if network.value.description == ClusterTagKey(cl.name) {
        var err, _ := CreateOrGetRouter();
        if err != None {
          return false;
        }
        router := Some(RouterOf(cl));
      }
      selfLink := Some(NetworkOf(cl));
      ok := true;
    }

    method DeleteOwnRouter() returns (ok: bool)
      modifies this`faults, this`store
      ensures Finish(cl, old(At(LookRouter))) == Finish(cl, if ok then At(DropNetwork) else At(Idle(false)))
    {
      var err, found := Get(RouterOf(cl));
      if err != None && err.value != NotFound {
        return false;
      }
      if found.Some? && found.value.description == ClusterTagKey(cl.name) {
        err := Delete(RouterOf(cl));
        if err != None && err.value != NotFound {
          return false;
        }
      }
      ok := true;
    }

    method DeleteOwnNetwork() returns (ok: bool)
      modifies this
      requires Owns(cl, store, NetworkOf(cl))
      ensures Finish(cl, old(At(LookRouter))) == Finish(cl, At(Idle(ok)))
    {
      ok := DeleteOwnRouter();
      if !ok {
        return;
      }
      var err := Delete(NetworkOf(cl));
      if err != None {
        return false;
      }
      router, selfLink := None, None;
    }

    method DeleteNetwork() returns (ok: bool)
      modifies this
      ensures At(Idle(ok)) == Finish(cl, old(At(GetNetwork)).(actor := Begin(cl, old(At(GetNetwork)).actor, true)))
    {
      if cl.sharedVpc {
        router, selfLink := None, None;
        return true;
      }
      var err, network := Get(NetworkOf(cl));
      if err != None {
        return err.value == NotFound;
      }
      if network.value.description != ClusterTagKey(cl.name) {
        return true;
      }
      ok := DeleteOwnNetwork();
    }
  }

  // ----- the subnet service -----

  datatype SubnetKey = SubnetKey(region: string, name: string)

  /** `description` is the spec's own text, or the cluster's tag where the user gave none. */
  datatype SubnetSpec = SubnetSpec(name: string, region: string, description: string)

  type Subnets = map<SubnetKey, string>

  function KeyOf(cl: Cluster, s: SubnetSpec): SubnetKey {
    SubnetKey(if s.region != "" then s.region else cl.region, s.name)
  }

  function KeysOf(cl: Cluster, specs: seq<SubnetSpec>): set<SubnetKey> { set s | s in specs :: KeyOf(cl, s) }

  /** Neither the cluster's tag nor the spec's own description. */
  predicate Foreign(cl: Cluster, s: SubnetSpec, description: string) {
    description != ClusterTagKey(cl.name) && (s.description == "" || description != s.description)
  }

  datatype SubnetRun = SubnetRun(subnets: Subnets, faults: seq<Fault>, ok: bool)

  /** Goes through the specs in order; a foreign subnet ends the loop, and with success. */
  function DeleteSpecs(cl: Cluster, specs: seq<SubnetSpec>, subnets: Subnets, faults: seq<Fault>): SubnetRun
    decreases |specs|
  {
    if specs == [] then SubnetRun(subnets, faults, true)
    else
      var key, faults1 := KeyOf(cl, specs[0]), Later(faults);
      if !First(faults).Works? then SubnetRun(subnets, faults1, false)
      else if key !in subnets then DeleteSpecs(cl, specs[1..], subnets, faults1)
      else if Foreign(cl, specs[0], subnets[key]) then SubnetRun(subnets, faults1, true)
      else
        var subnets1 := if First(faults1).FailsBefore? then subnets else subnets - {key};
        if !First(faults1).Works? then SubnetRun(subnets1, Later(faults1), false)
        else DeleteSpecs(cl, specs[1..], subnets1, Later(faults1))
  }

  function DeleteWanted(cl: Cluster, specs: seq<SubnetSpec>, subnets: Subnets, faults: seq<Fault>): SubnetRun {
    if cl.sharedVpc then SubnetRun(subnets, faults, true) else DeleteSpecs(cl, specs, subnets, faults)
  }

  /** In the store before the call: spec `i` names a foreign subnet that no earlier spec names too. */
  predicate Blocks(cl: Cluster, specs: seq<SubnetSpec>, before: Subnets, i: int) {
    && 0 <= i < |specs| && KeyOf(cl, specs[i]) in before && Foreign(cl, specs[i], before[KeyOf(cl, specs[i])])
    && (forall j :: 0 <= j < i ==> KeyOf(cl, specs[j]) != KeyOf(cl, specs[i]))
  }

  /** `n` is the first spec that blocks, or the number of specs if none does. */
  ghost predicate FirstBlock(cl: Cluster, specs: seq<SubnetSpec>, before: Subnets, n: int) {
    && 0 <= n <= |specs| && (n < |specs| ==> Blocks(cl, specs, before, n))
    && (forall i :: 0 <= i < n ==> !Blocks(cl, specs, before, i))
  }

  lemma NextKeys(cl: Cluster, specs: seq<SubnetSpec>, i: nat)
    requires i < |specs|
    ensures KeysOf(cl, specs[..i + 1]) == KeysOf(cl, specs[..i]) + {KeyOf(cl, specs[i])}
  {
    assert specs[..i + 1] == specs[..i] + [specs[i]];
  }

  /** Once the keys of the earlier specs are gone, a spec blocks exactly if what it finds is foreign. */
  lemma BlocksIff(cl: Cluster, specs: seq<SubnetSpec>, before: Subnets, i: nat)
    requires i < |specs|
    ensures var key := KeyOf(cl, specs[i]);
      Blocks(cl, specs, before, i) <==>
        key in before - KeysOf(cl, specs[..i]) && Foreign(cl, specs[i], before[key])
  {
    assert forall j :: 0 <= j < i ==> specs[j] in specs[..i];
  }

  lemma {:induction false} DeleteSpecsFrom(cl: Cluster, specs: seq<SubnetSpec>, before: Subnets, faults: seq<Fault>,
                                           i: nat)
    requires i <= |specs| && (forall j :: 0 <= j < i ==> !Blocks(cl, specs, before, j))
    ensures var r := DeleteSpecs(cl, specs[i..], before - KeysOf(cl, specs[..i]), faults);
      r.ok ==> exists n :: FirstBlock(cl, specs, before, n) && r.subnets == before - KeysOf(cl, specs[..n])
    decreases |specs| - i
  {
    hide Blocks, Foreign, KeyOf, KeysOf;
    var subnets := before - KeysOf(cl, specs[..i]);
    if i == |specs| {
      assert FirstBlock(cl, specs, before, i);
    } else {
      var key := KeyOf(cl, specs[i]);
      BlocksIff(cl, specs, before, i);
      if Blocks(cl, specs, before, i) {
        assert FirstBlock(cl, specs, before, i);
      } else {
        NextKeys(cl, specs, i);
        assert specs[i..][1..] == specs[i + 1..];
        assert before - KeysOf(cl, specs[..i + 1]) == subnets - {key};
        assert key !in subnets ==> subnets - {key} == subnets;
        DeleteSpecsFrom(cl, specs, before, Later(faults), i + 1);
        DeleteSpecsFrom(cl, specs, before, Later(Later(faults)), i + 1);
      }
    }
  }

  /** A nil Delete removes exactly the wanted subnets before the first one that blocks in the store it started from. */
  lemma NilDeleteStopsAtFirstBlock(cl: Cluster, specs: seq<SubnetSpec>, before: Subnets, faults: seq<Fault>)
    requires !cl.sharedVpc
    ensures var r := DeleteWanted(cl, specs, before, faults);
      r.ok ==> exists n :: FirstBlock(cl, specs, before, n) && r.subnets == before - KeysOf(cl, specs[..n])
  {
    assert specs[0..] == specs && specs[..0] == [];
    assert before - KeysOf(cl, []) == before;
    DeleteSpecsFrom(cl, specs, before, faults, 0);
  }

  /** A nil Delete leaves a wanted subnet behind if and only if some spec blocks in the store it started from. */
  lemma LeftoversIff(cl: Cluster, specs: seq<SubnetSpec>, before: Subnets, faults: seq<Fault>)
    requires !cl.sharedVpc
    ensures var r := DeleteWanted(cl, specs, before, faults);
      r.ok ==> ((exists s :: s in specs && KeyOf(cl, s) in r.subnets) <==> exists i :: Blocks(cl, specs, before, i))
  {
    NilDeleteStopsAtFirstBlock(cl, specs, before, faults);
    var r := DeleteWanted(cl, specs, before, faults);
    if r.ok {
      var n :| FirstBlock(cl, specs, before, n) && r.subnets == before - KeysOf(cl, specs[..n]);
      if n < |specs| {
        assert specs[n] in specs && Blocks(cl, specs, before, n);
        assert KeyOf(cl, specs[n]) in r.subnets;
      } else {
        assert specs[..n] == specs;
      }
    }
  }

  ghost predicate Faultless(faults: seq<Fault>) { forall f :: f in faults ==> f.Works? }

  /** Where no call fails, Delete returns nil. */
  lemma {:induction false} FaultlessDelete(cl: Cluster, specs: seq<SubnetSpec>, subnets: Subnets, faults: seq<Fault>)
    requires Faultless(faults)
    ensures DeleteSpecs(cl, specs, subnets, faults).ok
    decreases |specs|
  {
    hide Foreign, KeyOf;
    if specs != [] {
      FaultlessDelete(cl, specs[1..], subnets, Later(faults));
      FaultlessDelete(cl, specs[1..], subnets - {KeyOf(cl, specs[0])}, Later(Later(faults)));
    }
  }

  /** The spec's subnet, in its own region or else the cluster's, is ours: tagged, or described as specified. */
  ghost predicate Ours(cl: Cluster, s: SubnetSpec, k: SubnetKey, description: string) {
    && k.name == s.name && k.region == (if s.region == "" then cl.region else s.region)
    && (description == "capg-cluster-" + cl.name || (s.description != "" && description == s.description))
  }

  /** Whatever fails, only subnets of the cluster are ever deleted, and none in a shared VPC. */
  lemma {:induction false} DeletesOnlyOurs(cl: Cluster, specs: seq<SubnetSpec>, before: Subnets, faults: seq<Fault>,
                                           k: SubnetKey)
    requires k in before && k !in DeleteWanted(cl, specs, before, faults).subnets
    ensures !cl.sharedVpc && exists s :: s in specs && Ours(cl, s, k, before[k])
    decreases |specs|
  {
    var key, faults1 := KeyOf(cl, specs[0]), Later(faults);
    assert specs[0] in specs;
    if key !in before {
      DeletesOnlyOurs(cl, specs[1..], before, faults1, k);
    } else if k != key {
      DeletesOnlyOurs(cl, specs[1..], before - {key}, Later(faults1), k);
    }
  }

  /** Where every subnet that a spec names is the cluster's, a nil Delete outside a shared VPC leaves none of them. */
  lemma AllOursGo(cl: Cluster, specs: seq<SubnetSpec>, before: Subnets, faults: seq<Fault>)
    requires !cl.sharedVpc && DeleteWanted(cl, specs, before, faults).ok
    requires forall s :: s in specs && KeyOf(cl, s) in before ==> Ours(cl, s, KeyOf(cl, s), before[KeyOf(cl, s)])
    ensures forall s, k: SubnetKey :: s in specs && k in DeleteWanted(cl, specs, before, faults).subnets ==>
              !(k.name == s.name && k.region == if s.region == "" then cl.region else s.region)
  {
    LeftoversIff(cl, specs, before, faults);
    forall i ensures !Blocks(cl, specs, before, i) {
      if 0 <= i < |specs| { assert specs[i] in specs; }
    }
  }

  /** The first spec names a foreign subnet, the second an owned one: a fault-free Delete returns nil and keeps both. */
  lemma OwnedSubnetSurvives(cl: Cluster, foreign: SubnetSpec, owned: SubnetSpec, text: string)
    requires !cl.sharedVpc && KeyOf(cl, foreign) != KeyOf(cl, owned) && Foreign(cl, foreign, text)
    ensures var before := map[KeyOf(cl, foreign) := text, KeyOf(cl, owned) := ClusterTagKey(cl.name)];
      && !Foreign(cl, owned, before[KeyOf(cl, owned)])
      && DeleteWanted(cl, [foreign, owned], before, []) == SubnetRun(before, [], true)
  {
  }

  class SubnetService {
    const cl: Cluster
    const specs: seq<SubnetSpec>
    var subnets: Subnets
    var faults: seq<Fault>

    constructor (cl: Cluster, specs: seq<SubnetSpec>, subnets: Subnets, faults: seq<Fault>)
      ensures this.cl == cl && this.specs == specs && this.subnets == subnets && this.faults == faults
    {
      this.cl, this.specs, this.subnets, this.faults := cl, specs, subnets, faults;
    }

    method Take() returns (fault: Fault)
      modifies this`faults
      ensures fault == First(old(faults)) && faults == Later(old(faults))
    {
      fault := First(faults);
      faults := Later(faults);
    }

    /** Whatever fails, existing subnets stay as they are, and new ones are the wanted ones with the wanted text. */
    method ReconcileSubnets() returns (ok: bool)
      modifies this
      ensures forall k :: k in old(subnets) ==> k in subnets && subnets[k] == old(subnets)[k]
      ensures forall k :: k in subnets && k !in old(subnets) ==>
                exists s :: s in specs && k == KeyOf(cl, s) && subnets[k] == s.description
      ensures cl.sharedVpc ==> subnets == old(subnets)
      ensures ok ==> KeysOf(cl, specs) <= subnets.Keys
      ensures Faultless(old(faults)) && (!cl.sharedVpc || KeysOf(cl, specs) <= old(subnets).Keys) ==> ok
    {
      for i := 0 to |specs|
        invariant forall k :: k in old(subnets) ==> k in subnets && subnets[k] == old(subnets)[k]
        invariant forall k :: k in subnets && k !in old(subnets) ==>
                    exists s :: s in specs && k == KeyOf(cl, s) && subnets[k] == s.description
        invariant cl.sharedVpc ==> subnets == old(subnets)
        invariant KeysOf(cl, specs[..i]) <= subnets.Keys
        invariant Faultless(old(faults)) ==> Faultless(faults)
      {
        assert specs[i] in specs;
        var key := KeyOf(cl, specs[i]);
        var fault := Take();
        if !fault.Works? { return false; }
        if key !in subnets {
          if cl.sharedVpc { return false; }
          fault := Take();
          if !fault.FailsBefore? {
            subnets := subnets[key := specs[i].description];
          }
          if !fault.Works? { return false; }
          fault := Take();
          if !fault.Works? { return false; }
        }
        assert specs[..i + 1] == specs[..i] + [specs[i]];
      }
      assert specs[..|specs|] == specs;
      ok := true;
    }

    /** A nil result means: every subnet before the first that blocks is gone, and nothing else. */
    method DeleteSubnets() returns (ok: bool)
      modifies this
      ensures SubnetRun(subnets, faults, ok) == DeleteWanted(cl, specs, old(subnets), old(faults))
      ensures forall k :: k in subnets ==> k in old(subnets) && subnets[k] == old(subnets)[k]
      ensures forall k :: k in old(subnets) && k !in subnets ==>
                exists s :: s in specs && k == KeyOf(cl, s) && !Foreign(cl, s, old(subnets)[k])
      ensures cl.sharedVpc ==> subnets == old(subnets) && ok
      ensures ok && !cl.sharedVpc ==>
                ((exists s :: s in specs && KeyOf(cl, s) in subnets) <==>
                 exists i :: Blocks(cl, specs, old(subnets), i))
    {
      hide Blocks, Foreign, KeyOf;
      if cl.sharedVpc { return true; }
      LeftoversIff(cl, specs, subnets, faults);
      for i := 0 to |specs|
        invariant DeleteSpecs(cl, specs, old(subnets), old(faults)) == DeleteSpecs(cl, specs[i..], subnets, faults)
        invariant forall k :: k in subnets ==> k in old(subnets) && subnets[k] == old(subnets)[k]
        invariant forall k :: k in old(subnets) && k !in subnets ==>
                    exists s :: s in specs && k == KeyOf(cl, s) && !Foreign(cl, s, old(subnets)[k])
      {
        var key := KeyOf(cl, specs[i]);
        assert specs[i] in specs && specs[i..][1..] == specs[i + 1..];
        var fault := Take();
        if !fault.Works? { return false; }
        if key !in subnets { continue; }
        if Foreign(cl, specs[i], subnets[key]) {
          return true;
        }
        fault := Take();
        if !fault.FailsBefore? {
          subnets := subnets - {key};
        }
        if !fault.Works? { return false; }
      }
      ok := true;
    }
  }
}
