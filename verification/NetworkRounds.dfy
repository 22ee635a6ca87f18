/** A round of the network service that nothing disturbs: when it succeeds, what it leaves, and that Delete undoes. */
module NetworkRounds {
  import opened CloudApi
  import opened Networks
  import opened NetworkServices

  function Tag(cl: Cluster): string { "capg-cluster-" + cl.name }

  function NetName(cl: Cluster): NetKey { NetworkKey(cl.networkName) }

  function RouterName(cl: Cluster): NetKey { RouterKey(cl.region, cl.networkName + "-router") }

  ghost predicate Tagged(cl: Cluster, store: Store, k: NetKey) { k in store && store[k].description == Tag(cl) }

  function Reconciled(cl: Cluster, a: Actor, store: Store): Local {
    Finish(cl, Local(Begin(cl, a, false), store, []))
  }

  function Deleted(cl: Cluster, a: Actor, store: Store): Local { Finish(cl, Local(Begin(cl, a, true), store, [])) }

  /** One undisturbed call. */
  lemma Follow(cl: Cluster, a: Actor, store: Store) returns (a': Actor, store': Store)
    ensures (a', store') == Networks.Call(cl, a, store, Works)
    ensures Finish(cl, Local(a, store, [])) == Finish(cl, Local(a', store', []))
    ensures a'.pc.Idle? ==> Finish(cl, Local(a', store', [])) == Local(a', store', [])
  {
    var r := Networks.Call(cl, a, store, Works);
    a', store' := r.0, r.1;
  }

  lemma FinishRouter(cl: Cluster, a: Actor, store: Store)
    requires a.pc.GetRouter?
    ensures var l := Finish(cl, Local(a, store, [])); var router := RouterName(cl);
      && (l.actor.pc == Idle(true) <==> router in store || !cl.sharedVpc) && l.actor.pc.Idle? && l.faults == []
      && (l.actor.pc == Idle(true) ==> l.actor.selfLink == Some(NetName(cl)) && l.actor.router == Some(router))
      && l.store == (if router in store || cl.sharedVpc then store
                     else store[router := Router(Tag(cl), NetName(cl))])
  {
    hide Finish;
    var a1, store1 := Follow(cl, a, store);
    if RouterName(cl) !in store && !cl.sharedVpc {
      var a2, store2 := Follow(cl, a1, store1);
      var a3, store3 := Follow(cl, a2, store2);
    }
  }

  /**
    An undisturbed Reconcile succeeds unless a shared VPC lacks the network, or a tagged network there lacks its router.
    It makes the network if there is none, and the router of a network tagged for the cluster if that has none; both
    are recorded, the router only where the network is tagged.
   */
  lemma ReconcileDoes(cl: Cluster, a: Actor, store: Store)
    ensures var l := Reconciled(cl, a, store); var net, router := NetName(cl), RouterName(cl);
      var made := if net in store || cl.sharedVpc then store else store[net := Network(Tag(cl))];
      && l.actor.pc.Idle? && l.faults == []
      && (l.actor.pc == Idle(true) <==>
            !cl.sharedVpc || (net in store && (Tagged(cl, store, net) ==> router in store)))
      && l.store == (if Tagged(cl, made, net) && router !in store && !cl.sharedVpc
                     then made[router := Router(Tag(cl), net)] else made)
      && (l.actor.pc == Idle(true) ==>
            && l.actor.selfLink == Some(net)
            && l.actor.router == if Tagged(cl, made, net) then Some(router) else a.router)
  {
    hide Finish;
    var a1, store1 := Follow(cl, Begin(cl, a, false), store);
    if a1.pc.GetRouter? {
      FinishRouter(cl, a1, store);
    } else if a1.pc.InsertNetwork? {
      var a2, store2 := Follow(cl, a1, store1);
      var a3, store3 := Follow(cl, a2, store2);
      FinishRouter(cl, a3, store3);
    }
  }

  /**
    An undisturbed Delete always succeeds.  Outside a shared VPC it removes a network tagged for the cluster, and with
    it the router if that is tagged too; where the network is not tagged it removes nothing.
   */
  lemma DeleteDoes(cl: Cluster, a: Actor, store: Store)
    ensures var l := Deleted(cl, a, store); var net, router := NetName(cl), RouterName(cl);
      && l.actor.pc == Idle(true) && l.faults == []
      && l.store == (if cl.sharedVpc || !Tagged(cl, store, net) then store
                     else if Tagged(cl, store, router) then store - {net, router} else store - {net})
      && (cl.sharedVpc || Tagged(cl, store, net) ==> l.actor.selfLink == None && l.actor.router == None)
  {
    var net, router, a0 := NetName(cl), RouterName(cl), Begin(cl, a, true);
    if a0.pc.Idle? { return; }
    hide Finish;
    var a1, store1 := Follow(cl, a0, store);
    if a1.pc.LookRouter? {
      var a2, store2 := Follow(cl, a1, store1);
      var a3, store3 := Follow(cl, a2, store2);
      if a3.pc.DropNetwork? { var a4, store4 := Follow(cl, a3, store3); }
      assert store - {router} - {net} == store - {net, router};
    }
  }

  /**
    Delete undoes Reconcile: after both the store is as at first, less what was tagged for the cluster at first.  It
    is exactly as at first if and only if neither its network was tagged there, nor its router beside a missing one.
   */
  lemma DeleteUndoesIff(cl: Cluster, a: Actor, store: Store)
    requires !cl.sharedVpc
    ensures var l := Reconciled(cl, a, store); var after := Deleted(cl, l.actor, l.store).store;
      && (forall k :: k in after ==> k in store && after[k] == store[k])
      && (forall k :: k in store && !Tagged(cl, store, k) ==> k in after)
      && (after == store <==>
            && !Tagged(cl, store, NetName(cl))
            && !(Tagged(cl, store, RouterName(cl)) && NetName(cl) !in store))
  {
    hide Finish;
    ReconcileDoes(cl, a, store);
    var l := Reconciled(cl, a, store);
    DeleteDoes(cl, l.actor, l.store);
  }

  /** Clusters of one region share a router's name exactly if they share the network's. */
  lemma RoutersMeetIff(c: Cluster, d: Cluster)
    ensures RouterOf(c) == RouterOf(d) <==> c.region == d.region && NetworkOf(c) == NetworkOf(d)
  {
    var x, y := c.networkName + "-router", d.networkName + "-router";
    assert x[..|x| - 7] == c.networkName && y[..|y| - 7] == d.networkName;
  }
}
