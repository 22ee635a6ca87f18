/** The delete chains and the whole Delete call on a sound world. */
module LoadBalancerDelete {
  import opened CloudApi
  import opened LoadBalancerSpec
  import opened LoadBalancerInvariant
  import opened LoadBalancerSteps

  /** `w'` came from `w` by delete calls only. */
  ghost predicate Shrunk(w: World, w': World) {
    && w'.host == w.host && w'.finalizer == w.finalizer
    && (forall k :: k in w'.cloud ==> k in w.cloud && w'.cloud[k] == w.cloud[k])
  }

  lemma DropCallKeeps(cfg: Config, base: Cloud, zs: set<string>, w: World, k: Key)
    requires SoundRun(cfg, base, zs, w) && Own(cfg, k)
    requires k.kind.InstanceGroups? || !InUse(w.cloud, k)
    ensures var r := DeleteCall(w, k);
      && SoundRun(cfg, base, zs, r.w)
      && Shrunk(w, r.w) && r.w.net == w.net
      && (r.Done? || r.error == NotFound ==> k !in r.w.cloud)
  {
    if k in w.cloud && !InUse(w.cloud, k) {
      DropKeeps(cfg, base, zs, w.cloud, k);
      CalledKeeps(cfg, base, zs, w, Delete(k), w.cloud - {k});
    }
    CalledKeeps(cfg, base, zs, w, Delete(k), w.cloud);
  }

  /** The resources that could link to the chain resource at `k` are gone. */
  predicate Detached(c: Cloud, k: Key) {
    && !k.kind.InstanceGroups?
    && (k.kind.HealthChecks? ==> k.(kind := BackendServices) !in c)
    && (k.kind.BackendServices? ==>
          k.(kind := ForwardingRules) !in c && (k.scope.Global? ==> k.(kind := TargetTcpProxies) !in c))
    && (k.kind.TargetTcpProxies? || k.kind.Addresses? ==> k.(kind := ForwardingRules) !in c)
  }

  lemma DeleteKeeps(cfg: Config, base: Cloud, zs: set<string>, w: World, k: Key)
    requires Clean(cfg, base) && SoundRun(cfg, base, zs, w) && k in Wanted(cfg) && Detached(w.cloud, k)
    ensures var r := DeleteIfPresent(w, k);
      && SoundRun(cfg, base, zs, r.w)
      && Shrunk(w, r.w) && r.w.net == w.net
      && (r.Done? ==> k !in r.w.cloud)
  {
    NoLinksLeft(cfg, w.cloud, k);
    NotInUse(cfg, base, zs, w.cloud, k);
    hide SoundLog, Sound, Wanted, Clean, Detached;
    DropCallKeeps(cfg, base, zs, w, k);
  }

  lemma NoLinksLeft(cfg: Config, c: Cloud, k: Key)
    requires k in Wanted(cfg) && Detached(c, k)
    ensures forall k' :: k' in c && MayLink(k', k) ==> k' !in Wanted(cfg)
  {
  }

  lemma WantedKeys(cfg: Config)
    ensures forall k :: k in Wanted(cfg) && k.scope.Global? <==>
              WantsExternal(cfg) && k in {ExternalKey(cfg, ForwardingRules), ExternalKey(cfg, Addresses),
                ExternalKey(cfg, TargetTcpProxies), ExternalKey(cfg, BackendServices), ExternalKey(cfg, HealthChecks)}
    ensures forall k :: k in Wanted(cfg) && k.scope.Regional? <==>
              WantsInternal(cfg) && k in {InternalKey(cfg, ForwardingRules), InternalKey(cfg, Addresses),
                InternalKey(cfg, BackendServices), InternalKey(cfg, HealthChecks)}
  {
  }

  lemma DeleteExternalKeeps(cfg: Config, base: Cloud, zs: set<string>, w: World)
    requires Clean(cfg, base) && SoundRun(cfg, base, zs, w) && WantsExternal(cfg)
    ensures var r := DeleteExternal(cfg, w);
      && SoundRun(cfg, base, zs, r.w)
      && Shrunk(w, r.w) && r.w.net.groups == w.net.groups && r.w.net.internal == w.net.internal
      && (r.Done? ==> (forall k :: k in Wanted(cfg) && k.scope.Global? ==> k !in r.w.cloud))
  {
    hide SoundLog, Sound, DeleteIfPresent, Wanted, Clean;
    WantedKeys(cfg);
    var rule, address, proxy, service, check :=
      ExternalKey(cfg, ForwardingRules), ExternalKey(cfg, Addresses), ExternalKey(cfg, TargetTcpProxies),
      ExternalKey(cfg, BackendServices), ExternalKey(cfg, HealthChecks);
    DeleteKeeps(cfg, base, zs, w, rule);
    var r1 := DeleteIfPresent(w, rule);
    if r1.Failed? { return; }
    var w1 := SetExternal(r1.w, r1.w.net.external.(forwardingRule := None));
    DeleteKeeps(cfg, base, zs, w1, address);
    var r2 := DeleteIfPresent(w1, address);
    if r2.Failed? { return; }
    var w2 := SetExternal(r2.w, r2.w.net.external.(address := None));
    DeleteKeeps(cfg, base, zs, w2, proxy);
    var r3 := DeleteIfPresent(w2, proxy);
    if r3.Failed? { return; }
    var w3 := SetExternal(r3.w, r3.w.net.external.(targetProxy := None));
    DeleteKeeps(cfg, base, zs, w3, service);
    var r4 := DeleteIfPresent(w3, service);
    if r4.Failed? { return; }
    var w4 := SetExternal(r4.w, r4.w.net.external.(backendService := None));
    DeleteKeeps(cfg, base, zs, w4, check);
  }

  lemma DeleteInternalKeeps(cfg: Config, base: Cloud, zs: set<string>, w: World)
    requires Clean(cfg, base) && SoundRun(cfg, base, zs, w) && WantsInternal(cfg)
    ensures var r := DeleteInternal(cfg, w);
      && SoundRun(cfg, base, zs, r.w)
      && Shrunk(w, r.w) && r.w.net.groups == w.net.groups
      && (r.Done? ==> (forall k :: k in Wanted(cfg) && k.scope.Regional? ==> k !in r.w.cloud))
  {
    hide SoundLog, Sound, DeleteIfPresent, Wanted, Clean;
    WantedKeys(cfg);
    var rule, address, service, check :=
      InternalKey(cfg, ForwardingRules), InternalKey(cfg, Addresses),
      InternalKey(cfg, BackendServices), InternalKey(cfg, HealthChecks);
    DeleteKeeps(cfg, base, zs, w, rule);
    var r1 := DeleteIfPresent(w, rule);
    if r1.Failed? { return; }
    var w1 := SetInternal(r1.w, r1.w.net.internal.(forwardingRule := None));
    DeleteKeeps(cfg, base, zs, w1, address);
    var r2 := DeleteIfPresent(w1, address);
    if r2.Failed? { return; }
    var w2 := SetInternal(r2.w, r2.w.net.internal.(address := None));
    DeleteKeeps(cfg, base, zs, w2, service);
    var r3 := DeleteIfPresent(w2, service);
    if r3.Failed? { return; }
    var w3 := SetInternal(r3.w, r3.w.net.internal.(backendService := None));
    DeleteKeeps(cfg, base, zs, w3, check);
  }

  lemma {:induction false} DeleteGroupsKeeps(cfg: Config, base: Cloud, zs: set<string>, w: World, order: seq<string>)
    requires SoundRun(cfg, base, zs, w)
    ensures var r := DeleteGroups(cfg, w, order);
      && SoundRun(cfg, base, zs, r.w)
      && Shrunk(w, r.w)
      && (r.Done? ==> (forall z :: z in order ==> GroupKey(cfg, z) !in r.w.cloud))
    decreases |order|
  {
    if order != [] {
      var k := GroupKey(cfg, order[0]);
      DropCallKeeps(cfg, base, zs, w, k);
      var r1 := DeleteCall(w, k);
      var w1 := if r1.Failed? && r1.error == NotFound then r1.w.(net := DropGroup(r1.w.net, order[0])) else r1.w;
      if r1.Done? || r1.error == NotFound {
        DeleteGroupsKeeps(cfg, base, zs, w1, order[1..]);
      }
    }
  }

  lemma DeleteAllKeeps(cfg: Config, base: Cloud, zs: set<string>, w: World, order: seq<string>)
    requires Clean(cfg, base) && SoundRun(cfg, base, zs, w)
    ensures var (w', ok) := DeleteAll(cfg, w, order);
      && SoundRun(cfg, base, zs, w')
      && Shrunk(w, w')
      && (ok ==> forall k :: k in Wanted(cfg) ==> k !in w'.cloud)
      && (ok ==> forall z :: z in order ==> GroupKey(cfg, z) !in w'.cloud)
  {
    hide SoundLog, Sound, DeleteExternal, DeleteInternal, DeleteGroups;
    if WantsExternal(cfg) { DeleteExternalKeeps(cfg, base, zs, w); }
    var r1: Step<()> := if WantsExternal(cfg) then DeleteExternal(cfg, w) else Done(w, ());
    if WantsInternal(cfg) { DeleteInternalKeeps(cfg, base, zs, r1.w); }
    var r2: Step<()> := if WantsInternal(cfg) then DeleteInternal(cfg, r1.w) else Done(r1.w, ());
    DeleteGroupsKeeps(cfg, base, zs, r2.w, order);
  }

  // ----- a Delete fails only by a fault -----

  /** No fault is added, and a failure has used one up. */
  ghost predicate Spends(w: World, r: Step<()>) {
    Faults(r.w.oracle) <= Faults(w.oracle) && (r.Failed? ==> Faults(r.w.oracle) < Faults(w.oracle))
  }

  lemma DeleteSpends(w: World, k: Key)
    requires !k.kind.InstanceGroups?
    ensures Spends(w, DeleteIfPresent(w, k))
  {
    FaultsStep(w, Delete(k), DeleteCall(w, k).w.cloud);
  }

  lemma DeleteExternalSpends(cfg: Config, w: World)
    ensures Spends(w, DeleteExternal(cfg, w))
  {
    hide DeleteIfPresent, Faults;
    forall w, kind: Kind | !kind.InstanceGroups? ensures Spends(w, DeleteIfPresent(w, ExternalKey(cfg, kind))) {
      DeleteSpends(w, ExternalKey(cfg, kind));
    }
  }

  lemma DeleteInternalSpends(cfg: Config, w: World)
    ensures Spends(w, DeleteInternal(cfg, w))
  {
    hide DeleteIfPresent, Faults;
    forall w, kind: Kind | !kind.InstanceGroups? ensures Spends(w, DeleteIfPresent(w, InternalKey(cfg, kind))) {
      DeleteSpends(w, InternalKey(cfg, kind));
    }
  }

  /** Once the backend services are gone, the cloud has no reason to refuse the deletion of a group. */
  lemma {:induction false} DeleteGroupsSpends(cfg: Config, base: Cloud, zs: set<string>, w: World, order: seq<string>)
    requires Clean(cfg, base) && SoundRun(cfg, base, zs, w) && (forall k :: k in Wanted(cfg) ==> k !in w.cloud)
    ensures Spends(w, DeleteGroups(cfg, w, order))
    decreases |order|
  {
    hide Sound, Wanted, Clean, Faults;
    if order != [] {
      var k := GroupKey(cfg, order[0]);
      NotInUse(cfg, base, zs, w.cloud, k);
      DropCallKeeps(cfg, base, zs, w, k);
      var r1 := DeleteCall(w, k);
      FaultsStep(w, Delete(k), r1.w.cloud);
      var w1 := if r1.Failed? && r1.error == NotFound then r1.w.(net := DropGroup(r1.w.net, order[0])) else r1.w;
      if r1.Done? || r1.error == NotFound {
        DeleteGroupsSpends(cfg, base, zs, w1, order[1..]);
      }
    }
  }

  lemma DeleteAllSpends(cfg: Config, base: Cloud, zs: set<string>, w: World, order: seq<string>)
    requires Clean(cfg, base) && SoundRun(cfg, base, zs, w)
    ensures var (w', ok) := DeleteAll(cfg, w, order);
      Faults(w'.oracle) <= Faults(w.oracle) && (!ok ==> Faults(w'.oracle) < Faults(w.oracle))
  {
    hide SoundLog, Sound, Clean, Faults, DeleteExternal, DeleteInternal, DeleteGroups;
    DeleteExternalSpends(cfg, w);
    if WantsExternal(cfg) { DeleteExternalKeeps(cfg, base, zs, w); }
    var r1: Step<()> := if WantsExternal(cfg) then DeleteExternal(cfg, w) else Done(w, ());
    DeleteInternalSpends(cfg, r1.w);
    if WantsInternal(cfg) { DeleteInternalKeeps(cfg, base, zs, r1.w); }
    var r2: Step<()> := if WantsInternal(cfg) then DeleteInternal(cfg, r1.w) else Done(r1.w, ());
    if r1.Done? && r2.Done? {
      DeleteGroupsSpends(cfg, base, zs, r2.w, order);
    } else {
      DeleteGroupsNoMore(cfg, r2.w, order);
    }
  }

  lemma {:induction false} DeleteGroupsNoMore(cfg: Config, w: World, order: seq<string>)
    ensures Faults(DeleteGroups(cfg, w, order).w.oracle) <= Faults(w.oracle)
    decreases |order|
  {
    hide Faults;
    if order != [] {
      var r1 := DeleteCall(w, GroupKey(cfg, order[0]));
      FaultsStep(w, Delete(GroupKey(cfg, order[0])), r1.w.cloud);
      DeleteGroupsNoMore(cfg, r1.w, order[1..]);
      DeleteGroupsNoMore(cfg, r1.w.(net := DropGroup(r1.w.net, order[0])), order[1..]);
    }
  }
}
