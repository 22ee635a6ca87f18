/**
  Backends are compared by number only.  What that means for whole rounds and runs: exactly when a
  successful Reconcile leaves a backend service with the groups of its zones, and a run where it does not.
 */
module LoadBalancerBackends {
  import opened CloudApi
  import opened LoadBalancerSpec
  import opened LoadBalancerInvariant
  import opened LoadBalancerSteps
  import opened LoadBalancerChains
  import opened LoadBalancerRuns

  // ----- steps that leave backend services alone -----

  /** At most the backend service at `k` has changed; `None` means none has. */
  ghost predicate Others(w: World, w': World, k: Option<Key>) {
    forall k': Key :: k'.kind.BackendServices? && Some(k') != k ==>
      (k' in w'.cloud <==> k' in w.cloud) && (k' in w.cloud ==> w'.cloud[k'] == w.cloud[k'])
  }

  lemma CreateOthers(w: World, k: Key, spec: Resource)
    requires !k.kind.BackendServices?
    ensures Others(w, CreateOrGet(w, k, spec).w, None)
  {
    CreateFacts(w, k, spec);
  }

  lemma RuleOthers(cfg: Config, w: World, k: Key, spec: Resource)
    requires !k.kind.BackendServices?
    ensures Others(w, CreateForwardingRule(cfg, w, k, spec).w, None)
  {
    hide CreateOrGet;
    CreateOthers(w, k, spec);
  }

  lemma {:induction false} SubnetOthers(cfg: Config, w: World, specs: seq<SubnetSpec>)
    ensures Others(w, GetSubnet(cfg, w, specs).w, None)
    decreases |specs|
  {
    if specs != [] { SubnetOthers(cfg, GetCall(w, SubnetKey(cfg, specs[0])).w, specs[1..]); }
  }

  lemma {:induction false} GroupsOthers(cfg: Config, w: World, zones: seq<string>, m: map<string, Link>, shared: bool)
    ensures Others(w, CreateGroupsFrom(cfg, w, zones, m, shared).w, None)
    decreases |zones|
  {
    hide CreateOrGet;
    if zones != [] {
      CreateOthers(w, GroupKey(cfg, zones[0]), GroupSpec(cfg));
      var r := CreateOrGet(w, GroupKey(cfg, zones[0]), GroupSpec(cfg));
      if r.Done? {
        var m1 := m[zones[0] := r.value.link];
        GroupsOthers(cfg, if shared then r.w.(net := r.w.net.(groups := Some(m1))) else r.w, zones[1..], m1, shared);
      }
    }
  }

  lemma ProxyOthers(cfg: Config, w: World, service: Link)
    ensures Others(w, CreateProxy(cfg, w, service).w, None)
  {
    hide CreateOrGet;
    CreateOthers(w, ExternalKey(cfg, TargetTcpProxies), TargetTcpProxy(service));
  }

  lemma FrontendOthers(cfg: Config, w: World, proxy: Link)
    ensures Others(w, CreateExternalFrontend(cfg, w, proxy).w, None)
  {
    hide CreateOrGet, CreateForwardingRule;
    var spec := Address(ExternalScheme, "", "", None, "");
    CreateOthers(w, ExternalKey(cfg, Addresses), spec);
    var r := CreateOrGet(w, ExternalKey(cfg, Addresses), spec);
    if r.Done? {
      var w1 := SetExternal(r.w, r.w.net.external.(address := Some(r.value.link))).(host := IpOf(r.value.resource));
      RuleOthers(cfg, w1, ExternalKey(cfg, ForwardingRules), ExternalRuleSpec(cfg, proxy, r.value.link));
    }
  }

  lemma AddressOthers(cfg: Config, w: World)
    ensures Others(w, CreateInternalAddress(cfg, w).w, None)
  {
    hide CreateOrGet, GetSubnet;
    SubnetOthers(cfg, w, cfg.subnets);
    var r := GetSubnet(cfg, w, cfg.subnets);
    if r.Done? { CreateOthers(r.w, InternalKey(cfg, Addresses), InternalAddressSpec(cfg, r.value)); }
  }

  lemma InternalRuleOthers(cfg: Config, w: World, service: Link, address: Link)
    ensures Others(w, CreateInternalRule(cfg, w, service, address).w, None)
  {
    hide CreateForwardingRule, GetSubnet;
    SubnetOthers(cfg, w, cfg.subnets);
    var r := GetSubnet(cfg, w, cfg.subnets);
    if r.Done? {
      RuleOthers(cfg, r.w, InternalKey(cfg, ForwardingRules), InternalRuleSpec(cfg, service, address, r.value));
    }
  }

  // ----- what becomes of a backend service -----

  /** The backends a service is left with: those it had if their number is right, else the wanted ones. */
  ghost function Kept(c: Cloud, k: Key, wanted: seq<Backend>): seq<Backend> {
    if k in c && |BackendsOf(c[k])| == |wanted| then BackendsOf(c[k]) else wanted
  }

  /** Backend services hold backend services. */
  ghost predicate Typed(c: Cloud, k: Key) { k in c ==> c[k].BackendService? }

  /** The service at `k` was brought to `wanted` by number; the other services are as they were. */
  ghost predicate Brought<T>(w: World, r: Step<T>, k: Key, wanted: seq<Backend>) {
    && Others(w, r.w, Some(k))
    && (k in w.cloud && |BackendsOf(w.cloud[k])| == |wanted| ==> k in r.w.cloud && r.w.cloud[k] == w.cloud[k])
    && (r.Done? ==> k in r.w.cloud && BackendsOf(r.w.cloud[k]) == Kept(w.cloud, k, wanted))
  }

  lemma ServiceBackends(w: World, k: Key, spec: Resource)
    requires Typed(w.cloud, k) && spec.BackendService? && k.kind.BackendServices?
    ensures Brought(w, CreateBackendService(w, k, spec), k, spec.backends)
  {
    CreateFacts(w, k, spec);
  }

  lemma ExternalServiceBackends(cfg: Config, w: World, groups: seq<Link>)
    requires Typed(w.cloud, ExternalKey(cfg, BackendServices))
    ensures Brought(w, CreateExternalService(cfg, w, groups), ExternalKey(cfg, BackendServices),
                    ExternalBackends(cfg, groups))
  {
    hide CreateOrGet, CreateBackendService, ExternalBackends;
    CreateOthers(w, ExternalKey(cfg, HealthChecks), HealthCheck(""));
    var r := CreateOrGet(w, ExternalKey(cfg, HealthChecks), HealthCheck(""));
    if r.Done? {
      var w1 := SetExternal(r.w, r.w.net.external.(healthCheck := Some(r.value.link)));
      ServiceBackends(w1, ExternalKey(cfg, BackendServices), ExternalBackendSpec(cfg, groups, r.value.link));
    }
  }

  lemma InternalServiceBackends(cfg: Config, w: World, groups: seq<Link>)
    requires Typed(w.cloud, InternalKey(cfg, BackendServices))
    ensures Brought(w, CreateInternalService(cfg, w, groups), InternalKey(cfg, BackendServices),
                    BackendsFor(Connection, 0, groups))
  {
    hide CreateOrGet, CreateBackendService, BackendsFor;
    CreateOthers(w, InternalKey(cfg, HealthChecks), HealthCheck(cfg.region));
    var r := CreateOrGet(w, InternalKey(cfg, HealthChecks), HealthCheck(cfg.region));
    if r.Done? {
      var w1 := SetInternal(r.w, r.w.net.internal.(healthCheck := Some(r.value.link)));
      ServiceBackends(w1, InternalKey(cfg, BackendServices), InternalBackendSpec(cfg, groups, r.value.link));
    }
  }

  lemma ExternalBackendsAfter(cfg: Config, w: World, groups: seq<Link>)
    requires Typed(w.cloud, ExternalKey(cfg, BackendServices))
    ensures Brought(w, CreateExternal(cfg, w, groups), ExternalKey(cfg, BackendServices), ExternalBackends(cfg, groups))
  {
    hide CreateExternalService, CreateProxy, CreateExternalFrontend, ExternalBackends, Kept;
    ExternalServiceBackends(cfg, w, groups);
    var r1 := CreateExternalService(cfg, w, groups);
    if r1.Failed? { return; }
    ProxyOthers(cfg, r1.w, r1.value);
    var r2 := CreateProxy(cfg, r1.w, r1.value);
    if r2.Failed? { return; }
    FrontendOthers(cfg, r2.w, r2.value);
  }

  lemma InternalBackendsAfter(cfg: Config, w: World, groups: seq<Link>)
    requires Typed(w.cloud, InternalKey(cfg, BackendServices))
    ensures Brought(w, CreateInternal(cfg, w, groups), InternalKey(cfg, BackendServices),
                    BackendsFor(Connection, 0, groups))
  {
    hide CreateInternalService, CreateInternalAddress, CreateInternalRule, BackendsFor, Kept;
    InternalServiceBackends(cfg, w, groups);
    var r1 := CreateInternalService(cfg, w, groups);
    if r1.Failed? { return; }
    AddressOthers(cfg, r1.w);
    var r2 := CreateInternalAddress(cfg, r1.w);
    if r2.Failed? { return; }
    InternalRuleOthers(cfg, r2.w, r1.value, r2.value);
  }

  function WantedBackends(cfg: Config, k: Key, zones: seq<string>): seq<Backend> {
    if k.scope.Global? then ExternalBackends(cfg, GroupLinks(cfg, zones))
    else BackendsFor(Connection, 0, GroupLinks(cfg, zones))
  }

  lemma ReconcileBackends(cfg: Config, w: World, zones: seq<string>, k: Key)
    requires k in Wanted(cfg) && k.kind.BackendServices?
    requires forall k' :: k' in Wanted(cfg) && k'.kind.BackendServices? ==> Typed(w.cloud, k')
    ensures var r := Reconcile(cfg, w, zones);
      && (r.Done? ==> k in r.w.cloud && BackendsOf(r.w.cloud[k]) == Kept(w.cloud, k, WantedBackends(cfg, k, zones)))
      && (k in w.cloud && |BackendsOf(w.cloud[k])| == |zones| ==> k in r.w.cloud && r.w.cloud[k] == w.cloud[k])
  {
    hide CreateGroupsFrom, CreateExternal, CreateInternal, ExternalBackends, BackendsFor, GroupLinks;
    GroupsOthers(cfg, w, zones, w.net.groups.GetOr(map[]), w.net.groups.Some?);
    WantedCount(cfg, k, zones);
    var r1 := CreateGroups(cfg, w, zones);
    if r1.Failed? { return; }
    if WantsExternal(cfg) { ExternalBackendsAfter(cfg, r1.w, r1.value); }
    var r2: Step<()> := if WantsExternal(cfg) then CreateExternal(cfg, r1.w, r1.value) else Done(r1.w, ());
    assert k == ExternalKey(cfg, BackendServices) || k == InternalKey(cfg, BackendServices);
    if r2.Failed? { return; }
    if WantsInternal(cfg) { InternalBackendsAfter(cfg, r2.w, r1.value); }
  }

  lemma WantedCount(cfg: Config, k: Key, zones: seq<string>)
    ensures |WantedBackends(cfg, k, zones)| == |zones|
  {
  }

  lemma SoundIsTyped(cfg: Config, base: Cloud, zs: set<string>, c: Cloud, k: Key)
    requires Sound(cfg, base, zs, c) && k in Wanted(cfg) && k.kind.BackendServices?
    ensures Typed(c, k)
  {
    if k in c { FitsOf(cfg, base, zs, c, k); }
  }

  lemma WantedGroups(cfg: Config, k: Key, zones: seq<string>)
    ensures Groups(WantedBackends(cfg, k, zones)) == ZoneGroups(cfg, zones)
  {
    var bs := WantedBackends(cfg, k, zones);
    forall z | z in zones ensures GroupKey(cfg, z) in Groups(bs) {
      var i :| 0 <= i < |zones| && zones[i] == z;
      assert bs[i].group == GroupKey(cfg, z) && bs[i] in bs;
    }
    forall l | l in Groups(bs) ensures l in ZoneGroups(cfg, zones) {
      var i :| 0 <= i < |bs| && bs[i].group == l;
      assert zones[i] in zones;
    }
  }

  /** In the cloud before the round: the service has the wrong groups, but as many as there are zones. */
  ghost predicate Stale(cfg: Config, c: Cloud, k: Key, zones: seq<string>) {
    k in c && |BackendsOf(c[k])| == |zones| && Groups(BackendsOf(c[k])) != ZoneGroups(cfg, zones)
  }

  lemma OwnRoundBackends(base: Cloud, zs: set<string>, w: World, a: Action, k: Key)
    requires SoundRun(a.cfg, base, zs, w) && a.ReconcileRound? && k in Wanted(a.cfg) && k.kind.BackendServices?
    ensures var (w', ok) := Round(w, a);
      && (ok ==> k in w'.cloud && BackendsOf(w'.cloud[k]) == Kept(w.cloud, k, WantedBackends(a.cfg, k, a.zones)))
      && (k in w.cloud && |BackendsOf(w.cloud[k])| == |a.zones| ==> k in w'.cloud && w'.cloud[k] == w.cloud[k])
  {
    hide Reconcile, Wanted, Sound, WantedBackends;
    var w0 := w.(net := Reload(w.net));
    forall k' | k' in Wanted(a.cfg) && k'.kind.BackendServices? ensures Typed(w0.cloud, k') {
      SoundIsTyped(a.cfg, base, zs, w.cloud, k');
    }
    ReconcileBackends(a.cfg, w0, a.zones, k);
  }

  lemma RoundBackends(cfg: Config, base: Cloud, zs: set<string>, w: World, a: Action, k: Key)
    requires SoundRun(cfg, base, zs, w) && a.ReconcileRound? && Kin(cfg, a.cfg)
    requires k in Wanted(cfg) && k.kind.BackendServices?
    ensures var (w', ok) := Round(w, a);
      && (ok ==> k in w'.cloud && BackendsOf(w'.cloud[k]) == Kept(w.cloud, k, WantedBackends(cfg, k, a.zones)))
      && (k in w.cloud && |BackendsOf(w.cloud[k])| == |a.zones| ==> k in w'.cloud && w'.cloud[k] == w.cloud[k])
  {
    hide Round, Wanted, Sound, SoundLog, Kept;
    KinKeys(cfg, a.cfg);
    KinSoundRun(cfg, a.cfg, base, zs, w);
    OwnRoundBackends(base, zs, w, a, k);
    assert GroupLinks(cfg, a.zones) == GroupLinks(a.cfg, a.zones);
    assert WantedBackends(cfg, k, a.zones) == WantedBackends(a.cfg, k, a.zones);
  }

  /**
    After any faulty run, a Reconcile that returns nil leaves a backend service with exactly the groups of its
    zones if and only if the service was not stale before that round.
   */
  lemma BackendsRightIff(cfg: Config, base: Cloud, w: World, actions: seq<Action>, a: Action, k: Key)
    requires Start(cfg, base, w) && PossibleRun(cfg, w, actions) && a.ReconcileRound? && Kin(cfg, a.cfg)
    ensures var w0 := Run(w, actions); var (w', ok) := Round(w0, a);
      ok && k in Wanted(cfg) && k.kind.BackendServices? ==>
        && k in w'.cloud
        && (Groups(BackendsOf(w'.cloud[k])) == ZoneGroups(cfg, a.zones) <==> !Stale(cfg, w0.cloud, k, a.zones))
  {
    hide Round, Wanted, Sound, WantedBackends;
    StartIsSound(cfg, base, Zones(actions), w);
    RunKeeps(cfg, base, Zones(actions), w, actions);
    if k in Wanted(cfg) && k.kind.BackendServices? {
      RoundBackends(cfg, base, Zones(actions), Run(w, actions), a, k);
      WantedGroups(cfg, k, a.zones);
      WantedCount(cfg, k, a.zones);
    }
  }

  /** Every round is a Reconcile over `n` zones. */
  ghost predicate OfSize(actions: seq<Action>, n: nat) {
    forall a :: a in actions ==> a.ReconcileRound? && |a.zones| == n
  }

  lemma {:induction false} NeverRepairedFrom(cfg: Config, base: Cloud, zs: set<string>, w: World, more: seq<Action>,
                                             k: Key)
    requires Clean(cfg, base) && SoundRun(cfg, base, zs, w) && PossibleRun(cfg, w, more) && Zones(more) <= zs
    requires k in Wanted(cfg) && k.kind.BackendServices? && k in w.cloud && OfSize(more, |BackendsOf(w.cloud[k])|)
    ensures var c := Run(w, more).cloud; k in c && c[k] == w.cloud[k]
    decreases |more|
  {
    hide Round, Wanted, Sound, SoundLog, Clean;
    if more != [] {
      var before, last := more[..|more| - 1], more[|more| - 1];
      assert last in more;
      NeverRepairedFrom(cfg, base, zs, w, before, k);
      RunKeeps(cfg, base, zs, w, before);
      RoundBackends(cfg, base, zs, Run(w, before), last, k);
    }
  }

  /**
    A backend service is never touched again while the number of zones stays the same: after any run, no sequence of
    Reconcile rounds over as many zones as it has backends changes it, whatever fails and whatever is edited.
   */
  lemma NeverRepaired(cfg: Config, base: Cloud, w: World, actions: seq<Action>, more: seq<Action>, k: Key)
    requires Start(cfg, base, w) && PossibleRun(cfg, w, actions)
    ensures var c, c' := Run(w, actions).cloud, Run(Run(w, actions), more).cloud;
      && PossibleRun(cfg, Run(w, actions), more)
      && k in Wanted(cfg) && k.kind.BackendServices? && k in c && OfSize(more, |BackendsOf(c[k])|)
      ==> k in c' && c'[k] == c[k]
  {
    hide Round, Wanted, Sound, SoundLog, PossibleRun, Run;
    var zs := Zones(actions) + Zones(more);
    StartIsSound(cfg, base, zs, w);
    RunKeeps(cfg, base, zs, w, actions);
    var c := Run(w, actions).cloud;
    if PossibleRun(cfg, Run(w, actions), more)
      && k in Wanted(cfg) && k.kind.BackendServices? && k in c && OfSize(more, |BackendsOf(c[k])|)
    {
      NeverRepairedFrom(cfg, base, zs, Run(w, actions), more, k);
    }
  }

  /**
    A fault-free Reconcile in zone `a` and then in zone `b`: both return nil, and the service still names only the
    group of `a`.
   */
  lemma StaleBackends(cfg: Config, base: Cloud, w: World, a: string, b: string, k: Key)
    requires Start(cfg, base, w) && Faults(w.oracle) == 0 && a != b && SubnetThere(cfg, base)
    requires k in Wanted(cfg) && k.kind.BackendServices?
    ensures
      var first, second := ReconcileRound(cfg, [a]), ReconcileRound(cfg, [b]);
      && PossibleRun(cfg, w, [first] + [second]) && Returned(w, [first]) && Returned(w, [first] + [second])
      && var c := Run(w, [first] + [second]).cloud;
         && k in c && Groups(BackendsOf(c[k])) == {GroupKey(cfg, a)} && |BackendsOf(c[k])| == 1
         && Groups(BackendsOf(c[k])) != ZoneGroups(cfg, [b])
  {
    hide Round, Wanted, Sound, SoundLog, SubnetThere, WantedBackends, Faults, Settled;
    var first, second, zs := ReconcileRound(cfg, [a]), ReconcileRound(cfg, [b]), {a, b};
    AppendRun(cfg, w, [], first);
    assert [] + [first] == [first];
    AppendRun(cfg, w, [first], second);
    StartIsSound(cfg, base, zs, w);
    RoundKeeps(cfg, base, zs, w, first);
    var w1 := Round(w, first).0;
    NotThere(cfg, base, w, k);
    RoundBackends(cfg, base, zs, w, first, k);
    WantedGroups(cfg, k, [a]);
    WantedCount(cfg, k, [a]);
    RoundKeeps(cfg, base, zs, w1, second);
    RoundBackends(cfg, base, zs, w1, second, k);
    OneZone(cfg, a);
    OneZone(cfg, b);
  }

  /** And so it stays: no run of further rounds over single zones, faulty or not, brings the group of `b` in. */
  lemma StaleForEver(cfg: Config, base: Cloud, w: World, a: string, b: string, k: Key, more: seq<Action>)
    requires Start(cfg, base, w) && Faults(w.oracle) == 0 && a != b && SubnetThere(cfg, base)
    requires k in Wanted(cfg) && k.kind.BackendServices?
    ensures var w2 := Run(w, [ReconcileRound(cfg, [a])] + [ReconcileRound(cfg, [b])]);
      PossibleRun(cfg, w2, more) && OfSize(more, 1) ==>
        var c := Run(w2, more).cloud; k in c && Groups(BackendsOf(c[k])) == {GroupKey(cfg, a)}
  {
    hide Run, Wanted, PossibleRun, OfSize;
    var rounds := [ReconcileRound(cfg, [a])] + [ReconcileRound(cfg, [b])];
    StaleBackends(cfg, base, w, a, b, k);
    if PossibleRun(cfg, Run(w, rounds), more) { NeverRepaired(cfg, base, w, rounds, more, k); }
  }

  lemma NotThere(cfg: Config, base: Cloud, w: World, k: Key)
    requires Start(cfg, base, w) && k in Wanted(cfg)
    ensures k !in w.cloud
  {
    assert Own(cfg, k);
  }

  lemma OneZone(cfg: Config, z: string)
    ensures ZoneGroups(cfg, [z]) == {GroupKey(cfg, z)}
  {
  }
}
