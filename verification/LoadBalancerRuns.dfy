/**
  Whole runs of the load balancer service: any number of Reconcile and Delete rounds, with a
  fault possible at every call, including the final patch of the object.
 */
module LoadBalancerRuns {
  import opened CloudApi
  import opened LoadBalancerSpec
  import opened LoadBalancerInvariant
  import opened LoadBalancerSteps
  import opened LoadBalancerChains
  import opened LoadBalancerDelete
  import opened LoadBalancerQuiescence

  /** A round works from the configuration of its time: between rounds the spec may be edited. */
  datatype Action =
    | ReconcileRound(cfg: Config, zones: seq<string>)
    | DeleteRound(cfg: Config, order: seq<string>)

  /** An empty map is omitted from the stored object and comes back as nil. */
  function Reload(net: NetworkStatus): NetworkStatus {
    if net.groups == Some(map[]) then net.(groups := None) else net
  }

  /**
    The two writes that end a round, each with its own fate: one for metadata and spec, which hold the finalizer and
    the host, and one for the status.  A write that fails before taking effect loses what it carried.
   */
  function CloseWith(before: World, after: World, ok: bool, finalizer: bool): (World, bool) {
    var spec := Next(after).fault;
    var w1 := Called(if spec.FailsBefore? then after.(host := before.host) else after.(finalizer := finalizer),
                     Patch, after.cloud);
    var status := Next(w1).fault;
    var w2 := Called(if status.FailsBefore? then w1.(net := before.net) else w1, Patch, w1.cloud);
    (w2, ok && spec.Works? && status.Works?)
  }

  function Close(before: World, after: World, ok: bool): (World, bool) { CloseWith(before, after, ok, after.finalizer) }

  function Round(w: World, a: Action): (World, bool) {
    var w0 := w.(net := Reload(w.net));
    match a
    case ReconcileRound(cfg, zones) => var r := Reconcile(cfg, w0, zones); Close(w0, r.w, r.Done?)
    case DeleteRound(cfg, order) => var (w1, ok) := DeleteAll(cfg, w0, order); Close(w0, w1, ok)
  }

  /**
    The round works for the cluster of `cfg`: edits leave region and load balancer spec alone.  Zone lists and map
    ranges come in any order, but without repetition.
   */
  ghost predicate Possible(cfg: Config, w: World, a: Action) {
    && Kin(cfg, a.cfg)
    && match a
       case ReconcileRound(_, zones) => Distinct(zones)
       case DeleteRound(_, order) => RangeOrder(Reload(w.net), order)
  }

  ghost function Run(w: World, actions: seq<Action>): World {
    if actions == [] then w else Round(Run(w, actions[..|actions| - 1]), actions[|actions| - 1]).0
  }

  ghost predicate PossibleRun(cfg: Config, w: World, actions: seq<Action>) {
    actions == [] ||
    (var before := actions[..|actions| - 1];
     PossibleRun(cfg, w, before) && Possible(cfg, Run(w, before), actions[|actions| - 1]))
  }

  /** The last round of the run returned nil. */
  ghost predicate Returned(w: World, actions: seq<Action>) {
    actions != [] && Round(Run(w, actions[..|actions| - 1]), actions[|actions| - 1]).1
  }

  ghost function ZonesOf(a: Action): set<string> {
    if a.ReconcileRound? then set z | z in a.zones else {}
  }

  ghost function Zones(actions: seq<Action>): set<string> {
    if actions == [] then {} else Zones(actions[..|actions| - 1]) + ZonesOf(actions[|actions| - 1])
  }

  /** The subnet an internal balancer asks for is there. */
  predicate SubnetThere(cfg: Config, base: Cloud) { WantsInternal(cfg) ==> SubnetReady(cfg, base, cfg.subnets) }

  /** A run starts on a clean cloud. */
  ghost predicate Start(cfg: Config, base: Cloud, w: World) {
    Clean(cfg, base) && w.cloud == base && w.log == []
  }

  lemma CloseKeeps(cfg: Config, base: Cloud, zs: set<string>, before: World, after: World, ok: bool)
    requires SoundRun(cfg, base, zs, after)
    ensures SoundRun(cfg, base, zs, Close(before, after, ok).0)
    ensures Faults(Close(before, after, ok).0.oracle) <= Faults(after.oracle)
    ensures ok && !Close(before, after, ok).1 ==> Faults(Close(before, after, ok).0.oracle) < Faults(after.oracle)
  {
    hide Sound, Faults;
    CalledKeeps(cfg, base, zs, after, Patch, after.cloud);
    FaultsStep(after, Patch, after.cloud);
    var w1 := Called(after, Patch, after.cloud);
    CalledKeeps(cfg, base, zs, w1, Patch, after.cloud);
    FaultsStep(w1, Patch, after.cloud);
  }

  /** One round, seen with its own configuration. */
  lemma OwnRoundKeeps(base: Cloud, zs: set<string>, w: World, a: Action)
    requires Clean(a.cfg, base) && SoundRun(a.cfg, base, zs, w) && Possible(a.cfg, w, a) && ZonesOf(a) <= zs
    ensures var (w', ok) := Round(w, a);
      && SoundRun(a.cfg, base, zs, w')
      && (a.ReconcileRound? && ok ==> Settled(a.cfg, a.zones, w') && SubnetThere(a.cfg, base))
      && Faults(w'.oracle) <= Faults(w.oracle)
      && (!ok && (a.ReconcileRound? ==> SubnetThere(a.cfg, base)) ==> Faults(w'.oracle) < Faults(w.oracle))
  {
    hide Sound, SoundLog, Reconcile, DeleteAll, SubnetReady, Faults, Wanted;
    var w0 := w.(net := Reload(w.net));
    assert SoundRun(a.cfg, base, zs, w0);
    match a
    case ReconcileRound(cfg, zones) =>
      ReconcileKeeps(cfg, base, zs, w0, zones);
      var r := Reconcile(cfg, w0, zones);
      CloseKeeps(cfg, base, zs, w0, r.w, r.Done?);
    case DeleteRound(cfg, order) =>
      DeleteAllKeeps(cfg, base, zs, w0, order);
      DeleteAllSpends(cfg, base, zs, w0, order);
      var (w1, ok) := DeleteAll(cfg, w0, order);
      CloseKeeps(cfg, base, zs, w0, w1, ok);
  }

  lemma KinSymmetric(cfg: Config, cfg': Config)
    requires Kin(cfg, cfg')
    ensures Kin(cfg', cfg) && Kin(cfg', cfg')
  {
  }

  lemma RoundKeeps(cfg: Config, base: Cloud, zs: set<string>, w: World, a: Action)
    requires Clean(cfg, base) && SoundRun(cfg, base, zs, w) && Possible(cfg, w, a) && ZonesOf(a) <= zs
    ensures var (w', ok) := Round(w, a);
      && SoundRun(cfg, base, zs, w')
      && (a.ReconcileRound? && ok ==> Settled(a.cfg, a.zones, w') && SubnetThere(a.cfg, base))
      && Faults(w'.oracle) <= Faults(w.oracle)
      && (!ok && (a.ReconcileRound? ==> SubnetThere(a.cfg, base)) ==> Faults(w'.oracle) < Faults(w.oracle))
  {
    hide Clean, SoundRun, Round, SubnetThere, Faults, Settled, Kin;
    KinSymmetric(cfg, a.cfg);
    KinClean(cfg, a.cfg, base);
    KinSoundRun(cfg, a.cfg, base, zs, w);
    OwnRoundKeeps(base, zs, w, a);
    KinSoundRun(a.cfg, cfg, base, zs, Round(w, a).0);
  }

  lemma {:induction false} RunKeeps(cfg: Config, base: Cloud, zs: set<string>, w: World, actions: seq<Action>)
    requires Clean(cfg, base) && SoundRun(cfg, base, zs, w) && PossibleRun(cfg, w, actions) && Zones(actions) <= zs
    ensures SoundRun(cfg, base, zs, Run(w, actions))
  {
    hide Sound, SoundLog, Round;
    if actions != [] {
      var before, last := actions[..|actions| - 1], actions[|actions| - 1];
      RunKeeps(cfg, base, zs, w, before);
      RoundKeeps(cfg, base, zs, Run(w, before), last);
    }
  }

  lemma StartIsSound(cfg: Config, base: Cloud, zs: set<string>, w: World)
    requires Start(cfg, base, w)
    ensures SoundRun(cfg, base, zs, w)
  {
    CleanIsSound(cfg, base, zs);
  }

  /** Referential integrity after every single call of every run, whatever fails and wherever. */
  lemma EveryCallKeepsIntegrity(cfg: Config, base: Cloud, w: World, actions: seq<Action>)
    requires Start(cfg, base, w) && PossibleRun(cfg, w, actions)
    ensures var log := Run(w, actions).log;
      forall i :: 0 <= i < |log| ==> Integrity(log[i].cloud) && Framed(cfg, base, log[i].cloud)
  {
    StartIsSound(cfg, base, Zones(actions), w);
    RunKeeps(cfg, base, Zones(actions), w, actions);
  }

  /** Backends that name the same instance group agree on the balancing mode. */
  ghost predicate ModesAgree(cfg: Config, c: Cloud) {
    forall k1, k2, b1, b2 ::
      (&& k1 in c && k2 in c && b1 in BackendsOf(c[k1]) && b2 in BackendsOf(c[k2])
       && b1.group == b2.group && IsGroup(cfg, b1.group)) ==> b1.mode == b2.mode
  }

  lemma BackendOwner(cfg: Config, base: Cloud, zs: set<string>, c: Cloud, k: Key, b: Backend)
    requires Clean(cfg, base) && Sound(cfg, base, zs, c)
    requires k in c && b in BackendsOf(c[k]) && IsGroup(cfg, b.group)
    ensures k in Wanted(cfg) && b.mode == Mode(cfg, k)
  {
    assert b.group in References(c[k]);
    if Own(cfg, k) {
      assert Fits(cfg, zs, k, c[k]);
    } else {
      assert Own(cfg, b.group);
    }
  }

  lemma SameMode(cfg: Config, k1: Key, k2: Key)
    requires k1 in Wanted(cfg) && k2 in Wanted(cfg)
    ensures Mode(cfg, k1) == Mode(cfg, k2)
  {
  }

  lemma SoundModesAgree(cfg: Config, base: Cloud, zs: set<string>, c: Cloud)
    requires Clean(cfg, base) && Sound(cfg, base, zs, c)
    ensures ModesAgree(cfg, c)
  {
    hide Sound, Clean, Wanted, Mode;
    forall k1, k2, b1, b2 | k1 in c && k2 in c && b1 in BackendsOf(c[k1]) && b2 in BackendsOf(c[k2])
      && b1.group == b2.group && IsGroup(cfg, b1.group)
      ensures b1.mode == b2.mode
    {
      BackendOwner(cfg, base, zs, c, k1, b1);
      BackendOwner(cfg, base, zs, c, k2, b2);
      SameMode(cfg, k1, k2);
    }
  }

  lemma EveryCallKeepsModes(cfg: Config, base: Cloud, w: World, actions: seq<Action>)
    requires Start(cfg, base, w) && PossibleRun(cfg, w, actions)
    ensures var log := Run(w, actions).log;
      forall i :: 0 <= i < |log| ==> ModesAgree(cfg, log[i].cloud)
  {
    StartIsSound(cfg, base, Zones(actions), w);
    RunKeeps(cfg, base, Zones(actions), w, actions);
    var log := Run(w, actions).log;
    forall i | 0 <= i < |log| ensures ModesAgree(cfg, log[i].cloud) {
      SoundModesAgree(cfg, base, Zones(actions), log[i].cloud);
    }
  }

  // ----- after a successful Reconcile -----

  lemma AppendRun(cfg: Config, w: World, actions: seq<Action>, a: Action)
    ensures Run(w, actions + [a]) == Round(Run(w, actions), a).0
    ensures PossibleRun(cfg, w, actions + [a]) <==>
              PossibleRun(cfg, w, actions) && Possible(cfg, Run(w, actions), a)
    ensures Returned(w, actions + [a]) <==> Round(Run(w, actions), a).1
    ensures Zones(actions + [a]) == Zones(actions) + ZonesOf(a)
  {
    hide Round;
    assert (actions + [a])[..|actions + [a]| - 1] == actions;
  }

  /** A run that ended in a Reconcile which returned nil. */
  ghost predicate Ended(cfg: Config, base: Cloud, w: World, actions: seq<Action>, last: Action) {
    && Start(cfg, base, w) && last.ReconcileRound?
    && PossibleRun(cfg, w, actions + [last]) && Returned(w, actions + [last])
  }

  lemma EndedFacts(cfg: Config, base: Cloud, w: World, actions: seq<Action>, last: Action)
    requires Ended(cfg, base, w, actions, last)
    ensures var w' := Run(w, actions + [last]); var zs := Zones(actions) + ZonesOf(last);
      && SoundRun(last.cfg, base, zs, w') && Settled(last.cfg, last.zones, w') && Distinct(last.zones)
      && Kin(cfg, last.cfg) && SubnetThere(last.cfg, base)
  {
    hide Sound, SoundLog, Round, SubnetThere, Settled, Distinct, Kin;
    var zs := Zones(actions) + ZonesOf(last);
    AppendRun(cfg, w, actions, last);
    StartIsSound(cfg, base, zs, w);
    RunKeeps(cfg, base, zs, w, actions);
    RoundKeeps(cfg, base, zs, Run(w, actions), last);
    KinSoundRun(cfg, last.cfg, base, zs, Run(w, actions + [last]));
  }

  /** The last Reconcile covers the zones of all earlier rounds. */
  ghost predicate Covers(actions: seq<Action>, last: Action) {
    last.ReconcileRound? && forall z :: z in Zones(actions) ==> z in last.zones
  }

  /** The control plane host is the global address, or the regional one if there is only an internal balancer. */
  ghost predicate HostSet(cfg: Config, w: World) {
    && (AsksExternal(cfg) ==>
          ExternalKey(cfg, Addresses) in w.cloud && w.cloud[ExternalKey(cfg, Addresses)].Address?
          && w.host == w.cloud[ExternalKey(cfg, Addresses)].ip)
    && (cfg.lbType == Some(Internal) ==>
          InternalKey(cfg, Addresses) in w.cloud && w.cloud[InternalKey(cfg, Addresses)].Address?
          && w.host == w.cloud[InternalKey(cfg, Addresses)].ip)
  }

  lemma FitsOf(cfg: Config, base: Cloud, zs: set<string>, c: Cloud, k: Key)
    requires Sound(cfg, base, zs, c) && k in Wanted(cfg) && k in c
    ensures Fits(cfg, zs, k, c[k])
  {
  }

  lemma SettledHost(cfg: Config, base: Cloud, zs: set<string>, w: World, zones: seq<string>)
    requires Sound(cfg, base, zs, w.cloud) && Settled(cfg, zones, w)
    ensures HostSet(cfg, w)
  {
    hide Sound;
    if WantsExternal(cfg) { FitsOf(cfg, base, zs, w.cloud, ExternalKey(cfg, Addresses)); }
    if WantsInternal(cfg) { FitsOf(cfg, base, zs, w.cloud, InternalKey(cfg, Addresses)); }
  }

  lemma HostIsTheAddress(cfg: Config, base: Cloud, w: World, actions: seq<Action>, last: Action)
    requires Ended(cfg, base, w, actions, last)
    ensures HostSet(cfg, Run(w, actions + [last]))
  {
    hide Run, Round, Sound, Settled, PossibleRun, Returned, SubnetThere;
    EndedFacts(cfg, base, w, actions, last);
    SettledHost(last.cfg, base, Zones(actions) + ZonesOf(last), Run(w, actions + [last]), last.zones);
  }

  ghost function Groups(backends: seq<Backend>): set<Link> { set b | b in backends :: b.group }

  ghost function ZoneGroups(cfg: Config, zones: seq<string>): set<Link> { set z | z in zones :: GroupKey(cfg, z) }

  lemma {:induction false} GroupCount(backends: seq<Backend>)
    requires forall i, j :: 0 <= i < j < |backends| ==> backends[i].group != backends[j].group
    ensures |Groups(backends)| == |backends|
  {
    if backends != [] {
      var rest, last := backends[..|backends| - 1], backends[|backends| - 1];
      GroupCount(rest);
      assert Groups(backends) == Groups(rest) + {last.group};
      assert last.group !in Groups(rest);
    }
  }

  lemma {:induction false} ZoneGroupCount(cfg: Config, zones: seq<string>)
    ensures |ZoneGroups(cfg, zones)| <= |zones|
  {
    if zones != [] {
      var rest, last := zones[..|zones| - 1], zones[|zones| - 1];
      ZoneGroupCount(cfg, rest);
      assert ZoneGroups(cfg, zones) == ZoneGroups(cfg, rest) + {GroupKey(cfg, last)};
    }
  }

  lemma NestedSetsOfEqualSize<T>(a: set<T>, b: set<T>)
    requires a <= b && |b| <= |a|
    ensures a == b
  {
    assert |b - a| == |b| - |a|;
  }

  lemma BackendsCover(cfg: Config, zones: seq<string>, mode: BalancingMode, backends: seq<Backend>)
    requires FitBackends(cfg, (set z | z in zones), mode, backends) && |backends| == |zones|
    ensures Groups(backends) == ZoneGroups(cfg, zones)
  {
    GroupCount(backends);
    ZoneGroupCount(cfg, zones);
    forall l | l in Groups(backends) ensures l in ZoneGroups(cfg, zones) {
      assert l == GroupKey(cfg, l.scope.zone);
    }
    NestedSetsOfEqualSize(Groups(backends), ZoneGroups(cfg, zones));
  }

  lemma SettledBackends(cfg: Config, base: Cloud, w: World, zones: seq<string>, k: Key)
    requires Sound(cfg, base, (set z | z in zones), w.cloud) && Settled(cfg, zones, w)
    requires k in Wanted(cfg) && k.kind.BackendServices?
    ensures k in w.cloud && w.cloud[k].BackendService? && Groups(w.cloud[k].backends) == ZoneGroups(cfg, zones)
  {
    hide Sound;
    var zs := set z | z in zones;
    FitsOf(cfg, base, zs, w.cloud, k);
    BackendsCover(cfg, zones, Mode(cfg, k), w.cloud[k].backends);
  }

  /** Comparing backends by number is enough as long as zones are only ever added. */
  lemma BackendsMatchZones(cfg: Config, base: Cloud, w: World, actions: seq<Action>, last: Action, k: Key)
    requires Ended(cfg, base, w, actions, last) && Covers(actions, last)
    ensures var c := Run(w, actions + [last]).cloud;
      k in Wanted(cfg) && k.kind.BackendServices? ==>
        k in c && c[k].BackendService? && Groups(c[k].backends) == ZoneGroups(cfg, last.zones)
  {
    hide Run, Sound, Settled, Ended, Wanted, SubnetThere;
    EndedFacts(cfg, base, w, actions, last);
    KinKeys(cfg, last.cfg);
    assert Zones(actions) + ZonesOf(last) == (set z | z in last.zones);
    if k in Wanted(cfg) && k.kind.BackendServices? {
      SettledBackends(last.cfg, base, Run(w, actions + [last]), last.zones, k);
      assert ZoneGroups(last.cfg, last.zones) == ZoneGroups(cfg, last.zones);
    }
  }

  // ----- Delete inverts Reconcile -----

  /** Every instance group of this cluster in the cloud has an entry in the status map. */
  ghost predicate Recorded(cfg: Config, w: World) {
    forall z :: GroupKey(cfg, z) in w.cloud ==> z in w.net.groups.GetOr(map[])
  }

  lemma {:induction false} DeleteGroupsRecords(cfg: Config, w: World, order: seq<string>)
    ensures var r := DeleteGroups(cfg, w, order);
      && (Recorded(cfg, w) ==> Recorded(cfg, r.w))
      && (forall k :: k in w.cloud && (forall z :: z in order ==> k != GroupKey(cfg, z)) ==> k in r.w.cloud)
    decreases |order|
  {
    if order != [] {
      var k := GroupKey(cfg, order[0]);
      var r1 := DeleteCall(w, k);
      var w1 := if r1.Failed? && r1.error == NotFound then r1.w.(net := DropGroup(r1.w.net, order[0])) else r1.w;
      if r1.Done? || r1.error == NotFound {
        DeleteGroupsRecords(cfg, w1, order[1..]);
      }
    }
  }

  /** Only instance groups are out of reach of the delete chains. */
  ghost predicate SparesGroups(w: World, w': World) {
    && w'.net.groups == w.net.groups
    && (forall k: Key :: k.kind.InstanceGroups? ==> (k in w'.cloud <==> k in w.cloud))
  }

  lemma DeleteSpares(w: World, k: Key)
    requires !k.kind.InstanceGroups?
    ensures SparesGroups(w, DeleteIfPresent(w, k).w)
  {
  }

  lemma DeleteExternalSpares(cfg: Config, w: World)
    ensures SparesGroups(w, DeleteExternal(cfg, w).w)
  {
    hide DeleteIfPresent;
    forall w, kind: Kind | !kind.InstanceGroups? ensures SparesGroups(w, DeleteIfPresent(w, ExternalKey(cfg, kind)).w) {
      DeleteSpares(w, ExternalKey(cfg, kind));
    }
  }

  lemma DeleteInternalSpares(cfg: Config, w: World)
    ensures SparesGroups(w, DeleteInternal(cfg, w).w)
  {
    hide DeleteIfPresent;
    forall w, kind: Kind | !kind.InstanceGroups? ensures SparesGroups(w, DeleteIfPresent(w, InternalKey(cfg, kind)).w) {
      DeleteSpares(w, InternalKey(cfg, kind));
    }
  }

  lemma DeleteAllRecords(cfg: Config, w: World, order: seq<string>)
    ensures var w' := DeleteAll(cfg, w, order).0;
      && (Recorded(cfg, w) ==> Recorded(cfg, w'))
      && (forall k :: k in w.cloud && IsGroup(cfg, k) && k.scope.zone !in order ==> k in w'.cloud)
  {
    hide DeleteExternal, DeleteInternal, DeleteGroups;
    DeleteExternalSpares(cfg, w);
    var r1: Step<()> := if WantsExternal(cfg) then DeleteExternal(cfg, w) else Done(w, ());
    DeleteInternalSpares(cfg, r1.w);
    var r2: Step<()> := if WantsInternal(cfg) then DeleteInternal(cfg, r1.w) else Done(r1.w, ());
    DeleteGroupsRecords(cfg, r2.w, order);
  }

  lemma NothingOwnIsBase(cfg: Config, base: Cloud, zs: set<string>, c: Cloud)
    requires Clean(cfg, base) && Sound(cfg, base, zs, c) && (forall k :: k in c ==> !Own(cfg, k))
    ensures c == base
  {
    assert c.Keys == base.Keys;
  }

  lemma DeleteAllRestoresIff(cfg: Config, base: Cloud, zs: set<string>, w: World, order: seq<string>)
    requires Clean(cfg, base) && SoundRun(cfg, base, zs, w) && RangeOrder(w.net, order)
    requires DeleteAll(cfg, w, order).1
    ensures DeleteAll(cfg, w, order).0.cloud == base <==> Recorded(cfg, w)
  {
    hide DeleteAll, Wanted, Fits;
    DeleteAllKeeps(cfg, base, zs, w, order);
    DeleteAllRecords(cfg, w, order);
    var c := DeleteAll(cfg, w, order).0.cloud;
    if Recorded(cfg, w) {
      assert forall k :: k in c ==> !IsGroup(cfg, k);
      NothingOwnIsBase(cfg, base, zs, c);
    } else {
      var z :| GroupKey(cfg, z) in w.cloud && z !in w.net.groups.GetOr(map[]);
      assert IsGroup(cfg, GroupKey(cfg, z));
    }
  }

  lemma DeleteRoundRestoresIff(cfg: Config, base: Cloud, zs: set<string>, w: World, a: Action)
    requires Clean(cfg, base) && SoundRun(cfg, base, zs, w) && Possible(cfg, w, a) && a.DeleteRound? && Round(w, a).1
    ensures Round(w, a).0.cloud == base <==> Recorded(cfg, w)
  {
    hide DeleteAll, Clean, SoundLog, Sound, Recorded, Kin;
    KinClean(cfg, a.cfg, base);
    KinSoundRun(cfg, a.cfg, base, zs, w);
    KinRecorded(cfg, a.cfg, w);
    var w0 := w.(net := Reload(w.net));
    ReloadRecorded(a.cfg, w);
    DeleteAllRestoresIff(a.cfg, base, zs, w0, a.order);
  }

  lemma ReloadRecorded(cfg: Config, w: World)
    ensures Recorded(cfg, w.(net := Reload(w.net))) == Recorded(cfg, w)
  {
  }

  /**
    After any run, a Delete that returns nil restores the starting cloud exactly when no group was unrecorded before
    it.
   */
  lemma DeleteRestoresIff(cfg: Config, base: Cloud, w: World, actions: seq<Action>, a: Action)
    requires Start(cfg, base, w) && PossibleRun(cfg, w, actions)
    ensures var w0 := Run(w, actions); var (w', ok) := Round(w0, a);
      Possible(cfg, w0, a) && ok && a.DeleteRound? ==> (w'.cloud == base <==> Recorded(cfg, w0))
  {
    hide Round, Sound, SoundLog, Recorded, Possible;
    StartIsSound(cfg, base, Zones(actions), w);
    RunKeeps(cfg, base, Zones(actions), w, actions);
    if Possible(cfg, Run(w, actions), a) && Round(Run(w, actions), a).1 && a.DeleteRound? {
      DeleteRoundRestoresIff(cfg, base, Zones(actions), Run(w, actions), a);
    }
  }

  lemma DeleteRoundRecords(base: Cloud, zs: set<string>, w: World, a: Action)
    requires Clean(a.cfg, base) && SoundRun(a.cfg, base, zs, w) && Recorded(a.cfg, w) && a.DeleteRound?
    ensures Recorded(a.cfg, Round(w, a).0)
  {
    hide DeleteAll, Sound, SoundLog, Wanted;
    var w0 := w.(net := Reload(w.net));
    assert SoundRun(a.cfg, base, zs, w0) && Recorded(a.cfg, w0);
    DeleteAllKeeps(a.cfg, base, zs, w0, a.order);
    DeleteAllRecords(a.cfg, w0, a.order);
  }

  lemma KinRecorded(cfg: Config, cfg': Config, w: World)
    requires Kin(cfg, cfg')
    ensures Recorded(cfg, w) == Recorded(cfg', w)
  {
    KinKeys(cfg, cfg');
  }

  ghost predicate DeletesOnly(actions: seq<Action>) {
    forall a :: a in actions ==> a.DeleteRound?
  }

  lemma {:induction false} DeleteRunRecords(cfg: Config, base: Cloud, zs: set<string>, w: World, deletes: seq<Action>)
    requires Clean(cfg, base) && SoundRun(cfg, base, zs, w) && Recorded(cfg, w)
    requires DeletesOnly(deletes) && PossibleRun(cfg, w, deletes)
    ensures var w' := Run(w, deletes); SoundRun(cfg, base, zs, w') && Recorded(cfg, w')
  {
    hide Sound, SoundLog, Round, Recorded;
    if deletes != [] {
      var before, last := deletes[..|deletes| - 1], deletes[|deletes| - 1];
      assert last in deletes;
      DeleteRunRecords(cfg, base, zs, w, before);
      RoundKeeps(cfg, base, zs, Run(w, before), last);
      KinClean(cfg, last.cfg, base);
      KinSoundRun(cfg, last.cfg, base, zs, Run(w, before));
      KinRecorded(cfg, last.cfg, Run(w, before));
      DeleteRoundRecords(base, zs, Run(w, before), last);
      KinRecorded(cfg, last.cfg, Run(w, deletes));
    }
  }

  lemma SettledRecords(cfg: Config, base: Cloud, zs: set<string>, w: World, zones: seq<string>)
    requires zs == (set z | z in zones) && SoundRun(cfg, base, zs, w) && Settled(cfg, zones, w)
    ensures Recorded(cfg, w)
  {
    forall z | GroupKey(cfg, z) in w.cloud ensures z in w.net.groups.GetOr(map[]) {
      assert Own(cfg, GroupKey(cfg, z));
    }
  }

  /**
    Delete inverts Reconcile: after any faulty run whose last Reconcile returned nil and covered the
    zones of all earlier rounds, any number of Delete rounds, the last of which returns nil, leaves
    exactly the starting cloud.
   */
  lemma DeleteInvertsReconcile(cfg: Config, base: Cloud, w: World, actions: seq<Action>, last: Action,
                               deletes: seq<Action>)
    requires Ended(cfg, base, w, actions, last) && Covers(actions, last)
    ensures var w1 := Run(w, actions + [last]);
      DeletesOnly(deletes) && PossibleRun(cfg, w1, deletes) && Returned(w1, deletes) ==> Run(w1, deletes).cloud == base
  {
    hide Sound, SoundLog, Settled, Recorded, SubnetThere, Wanted, Round, Run, Kin;
    var w1 := Run(w, actions + [last]);
    var zs := set z | z in last.zones;
    EndedFacts(cfg, base, w, actions, last);
    assert Zones(actions) + ZonesOf(last) == zs;
    SettledRecords(last.cfg, base, zs, w1, last.zones);
    KinRecorded(cfg, last.cfg, w1);
    KinSymmetric(cfg, last.cfg);
    KinSoundRun(last.cfg, cfg, base, zs, w1);
    if DeletesOnly(deletes) && PossibleRun(cfg, w1, deletes) && Returned(w1, deletes) {
      DeletesRestore(cfg, base, zs, w1, deletes);
    }
  }

  lemma DeletesRestore(cfg: Config, base: Cloud, zs: set<string>, w: World, deletes: seq<Action>)
    requires Clean(cfg, base) && SoundRun(cfg, base, zs, w) && Recorded(cfg, w)
    requires DeletesOnly(deletes) && PossibleRun(cfg, w, deletes) && Returned(w, deletes)
    ensures Run(w, deletes).cloud == base
  {
    hide Sound, SoundLog, Recorded, Round, Possible;
    var before, last := deletes[..|deletes| - 1], deletes[|deletes| - 1];
    assert last in deletes;
    DeleteRunRecords(cfg, base, zs, w, before);
    DeleteRoundRestoresIff(cfg, base, zs, Run(w, before), last);
  }

  // ----- draining the group map -----

  /** The entries of the map whose group exists. */
  ghost function Present(cfg: Config, c: Cloud, net: NetworkStatus): set<string> {
    set z | z in net.groups.GetOr(map[]) && GroupKey(cfg, z) in c
  }

  lemma {:induction false} DeleteGroupsMap(cfg: Config, w: World, order: seq<string>)
    requires Distinct(order)
    ensures var r := DeleteGroups(cfg, w, order);
      r.Done? ==> forall z :: z in r.w.net.groups.GetOr(map[]) <==>
        z in w.net.groups.GetOr(map[]) && (z in order ==> GroupKey(cfg, z) in w.cloud)
    decreases |order|
  {
    if order != [] {
      var k := GroupKey(cfg, order[0]);
      var r1 := DeleteCall(w, k);
      if r1.Done? || r1.error == NotFound {
        var w1 := if r1.Failed? then r1.w.(net := DropGroup(r1.w.net, order[0])) else r1.w;
        assert forall z :: z != order[0] ==> (GroupKey(cfg, z) in w1.cloud <==> GroupKey(cfg, z) in w.cloud);
        assert forall z :: z in order <==> z == order[0] || z in order[1..];
        assert order[0] !in order[1..];
        DeleteGroupsMap(cfg, w1, order[1..]);
      }
    }
  }

  lemma DeleteAllMap(cfg: Config, w: World, order: seq<string>)
    requires RangeOrder(w.net, order)
    ensures var (w', ok) := DeleteAll(cfg, w, order);
      ok ==> w'.net.groups.GetOr(map[]).Keys == Present(cfg, w.cloud, w.net)
  {
    hide DeleteExternal, DeleteInternal, DeleteGroups;
    DeleteExternalSpares(cfg, w);
    var r1: Step<()> := if WantsExternal(cfg) then DeleteExternal(cfg, w) else Done(w, ());
    DeleteInternalSpares(cfg, r1.w);
    var r2: Step<()> := if WantsInternal(cfg) then DeleteInternal(cfg, r1.w) else Done(r1.w, ());
    DeleteGroupsMap(cfg, r2.w, order);
  }

  lemma DeleteRoundMap(base: Cloud, zs: set<string>, w: World, a: Action)
    requires Clean(a.cfg, base) && SoundRun(a.cfg, base, zs, w) && Possible(a.cfg, w, a) && a.DeleteRound?
    ensures var (w', ok) := Round(w, a);
      ok ==> && w'.net.groups.GetOr(map[]).Keys == Present(a.cfg, w.cloud, w.net)
             && Present(a.cfg, w'.cloud, w'.net) == {}
  {
    hide DeleteAll, Sound, SoundLog, Wanted;
    var w0 := w.(net := Reload(w.net));
    assert SoundRun(a.cfg, base, zs, w0);
    DeleteAllMap(a.cfg, w0, a.order);
    DeleteAllKeeps(a.cfg, base, zs, w0, a.order);
  }

  lemma KinRoundMap(cfg: Config, base: Cloud, zs: set<string>, w: World, a: Action)
    requires Clean(cfg, base) && SoundRun(cfg, base, zs, w) && Possible(cfg, w, a) && a.DeleteRound?
    ensures var (w', ok) := Round(w, a);
      ok ==> && w'.net.groups.GetOr(map[]).Keys == Present(cfg, w.cloud, w.net)
             && Present(cfg, w'.cloud, w'.net) == {}
  {
    hide Round, Clean, SoundRun, Kin;
    KinSymmetric(cfg, a.cfg);
    KinClean(cfg, a.cfg, base);
    KinSoundRun(cfg, a.cfg, base, zs, w);
    KinKeys(cfg, a.cfg);
    DeleteRoundMap(base, zs, w, a);
    var w' := Round(w, a).0;
    assert Present(a.cfg, w.cloud, w.net) == Present(cfg, w.cloud, w.net);
    assert Present(a.cfg, w'.cloud, w'.net) == Present(cfg, w'.cloud, w'.net);
  }

  /**
    Draining the map takes two calls: after any run, a nil Delete keeps the entries of exactly the groups that existed
    before it, though the groups are gone; the next nil Delete empties the map.
   */
  lemma DrainTakesTwo(cfg: Config, base: Cloud, w: World, actions: seq<Action>, a: Action, b: Action)
    requires Start(cfg, base, w) && PossibleRun(cfg, w, actions)
    ensures var w0 := Run(w, actions); var (w1, ok1) := Round(w0, a);
      Possible(cfg, w0, a) && a.DeleteRound? && ok1 ==>
        && w1.net.groups.GetOr(map[]).Keys == Present(cfg, w0.cloud, w0.net)
        && (Possible(cfg, w1, b) && b.DeleteRound? ==>
              var (w2, ok2) := Round(w1, b); ok2 ==> w2.net.groups.GetOr(map[]) == map[])
  {
    hide Round, Sound, SoundLog, Present, Possible;
    StartIsSound(cfg, base, Zones(actions), w);
    RunKeeps(cfg, base, Zones(actions), w, actions);
    var w0 := Run(w, actions);
    var (w1, ok1) := Round(w0, a);
    if !Possible(cfg, w0, a) || !a.DeleteRound? || !ok1 { return; }
    KinRoundMap(cfg, base, Zones(actions), w0, a);
    RoundKeeps(cfg, base, Zones(actions), w0, a);
    if Possible(cfg, w1, b) && b.DeleteRound? {
      KinRoundMap(cfg, base, Zones(actions), w1, b);
      assert Round(w1, b).1 ==> Round(w1, b).0.net.groups.GetOr(map[]).Keys == {};
    }
  }

  // ----- progress and quiescence -----

  /** Every Reconcile of the run finds the subnet it asks for. */
  ghost predicate SubnetsThere(base: Cloud, actions: seq<Action>) {
    forall a :: a in actions && a.ReconcileRound? ==> SubnetThere(a.cfg, base)
  }

  /** Round `j` of the run returned nil. */
  ghost predicate ReturnedAt(w: World, actions: seq<Action>, j: int) {
    0 <= j < |actions| && Returned(w, actions[..j + 1])
  }

  lemma {:induction false} FailuresAreBounded(cfg: Config, base: Cloud, zs: set<string>, w: World, actions: seq<Action>)
    requires Clean(cfg, base) && SoundRun(cfg, base, zs, w) && Zones(actions) <= zs
    requires SubnetsThere(base, actions) && PossibleRun(cfg, w, actions)
    ensures (exists j :: ReturnedAt(w, actions, j)) || Faults(Run(w, actions).oracle) + |actions| <= Faults(w.oracle)
  {
    hide Sound, SoundLog, Round, SubnetThere, Faults, Settled;
    if actions != [] && forall j :: !ReturnedAt(w, actions, j) {
      var n := |actions| - 1;
      var before, last := actions[..n], actions[n];
      assert last in actions;
      forall j ensures !ReturnedAt(w, before, j) {
        if 0 <= j < n {
          assert before[..j + 1] == actions[..j + 1];
          assert !ReturnedAt(w, actions, j);
        }
      }
      FailuresAreBounded(cfg, base, zs, w, before);
      RunKeeps(cfg, base, zs, w, before);
      RoundKeeps(cfg, base, zs, Run(w, before), last);
      assert actions[..n + 1] == actions;
      assert !ReturnedAt(w, actions, n);
    }
  }

  /** With k failing calls in total, one of any k + 1 rounds returns nil, be they Reconcile or Delete rounds. */
  lemma SomeRoundReturns(cfg: Config, base: Cloud, w: World, actions: seq<Action>)
    requires Start(cfg, base, w) && PossibleRun(cfg, w, actions)
    ensures SubnetsThere(base, actions) && |actions| > Faults(w.oracle) ==> exists j :: ReturnedAt(w, actions, j)
  {
    hide PossibleRun, ReturnedAt, Sound, SoundLog, SubnetsThere, Faults;
    StartIsSound(cfg, base, Zones(actions), w);
    if SubnetsThere(base, actions) { FailuresAreBounded(cfg, base, Zones(actions), w, actions); }
  }

  ghost predicate SameZones(a: seq<string>, b: seq<string>) {
    Distinct(a) && Distinct(b) && forall z :: z in a <==> z in b
  }

  lemma {:induction false} DistinctCount(a: seq<string>)
    requires Distinct(a)
    ensures |set z | z in a| == |a|
  {
    if a != [] {
      var rest, last := a[..|a| - 1], a[|a| - 1];
      DistinctCount(rest);
      assert (set z | z in a) == (set z | z in rest) + {last};
    }
  }

  lemma SameZonesCount(a: seq<string>, b: seq<string>)
    requires SameZones(a, b)
    ensures |a| == |b|
  {
    DistinctCount(a);
    DistinctCount(b);
    assert (set z | z in a) == (set z | z in b);
  }

  /** Losing an empty map to the stored form makes no difference to the next Reconcile. */
  lemma ReloadReconcile(cfg: Config, w: World, zones: seq<string>)
    requires Settled(cfg, zones, w)
    ensures Reconcile(cfg, w.(net := Reload(w.net)), zones) == Reconcile(cfg, w, zones)
  {
    hide CreateExternal, CreateInternal;
    var first := if zones == [] then "" else zones[0];
    assert zones == [] || first in zones;
    if w.net.groups == Some(map[]) {
      assert w.(net := Reload(w.net)).(net := Reload(w.net).(groups := Some(map[]))) == w;
    }
  }

  lemma CalmRound(cfg: Config, base: Cloud, zs: set<string>, w: World, zones: seq<string>)
    requires Faults(w.oracle) == 0 && SoundRun(cfg, base, zs, w) && Settled(cfg, zones, w) && SubnetThere(cfg, base)
    ensures var (w', ok) := Round(w, ReconcileRound(cfg, zones)); ok && Calm(w, w', RoundRequests(cfg))
  {
    hide Sound, Settled, Reconcile, SubnetReady, RoundRequests, Faults, Mutations;
    ReloadReconcile(cfg, w, zones);
    CalmReconcile(cfg, base, zs, w, zones);
    var w1 := Reconcile(cfg, w, zones).w;
    CalmCall(w1, Patch);
    CalmCall(Called(w1, Patch, w1.cloud), Patch);
  }

  /** The same wishes as far as a settled cluster goes: edits of ports and network name count for nothing. */
  ghost predicate SameWishes(a: Action, b: Action) {
    && a.ReconcileRound? && b.ReconcileRound? && Kin(a.cfg, b.cfg)
    && b.cfg.labels == a.cfg.labels && b.cfg.subnets == a.cfg.subnets && SameZones(a.zones, b.zones)
  }

  lemma SettledForBoth(base: Cloud, w: World, a: Action, b: Action)
    requires SameWishes(a, b) && Settled(a.cfg, a.zones, w) && SubnetThere(a.cfg, base)
    ensures Settled(b.cfg, b.zones, w) && SubnetThere(b.cfg, base) && RoundRequests(b.cfg) == RoundRequests(a.cfg)
  {
    KinKeys(a.cfg, b.cfg);
    SameZonesCount(a.zones, b.zones);
    SameSubnets(a.cfg, b.cfg, base, a.cfg.subnets);
  }

  lemma {:induction false} SameSubnets(cfg: Config, cfg': Config, base: Cloud, specs: seq<SubnetSpec>)
    requires Kin(cfg, cfg')
    ensures SubnetReady(cfg, base, specs) == SubnetReady(cfg', base, specs)
  {
    if specs != [] { SameSubnets(cfg, cfg', base, specs[1..]); }
  }

  /**
    Quiescence: once a Reconcile returned nil and no faults are left, a Reconcile with the same labels, subnets and
    zones, in any order, changes nothing, whatever else was edited; it sends no mutating request except one label
    request per forwarding rule when the labels are present but empty.
   */
  lemma Quiescence(cfg: Config, base: Cloud, w: World, actions: seq<Action>, last: Action, again: Action)
    requires Ended(cfg, base, w, actions, last)
    ensures var w1 := Run(w, actions + [last]);
      var (w2, ok) := Round(w1, again);
      SameWishes(last, again) && Faults(w1.oracle) == 0 ==> ok && Calm(w1, w2, RoundRequests(again.cfg))
  {
    hide Run, Round, Sound, SoundLog, SubnetThere, Ended, Faults, Mutations, RoundRequests, Settled;
    var w1, zs := Run(w, actions + [last]), Zones(actions) + ZonesOf(last);
    if !SameWishes(last, again) || Faults(w1.oracle) != 0 { return; }
    EndedFacts(cfg, base, w, actions, last);
    SettledForBoth(base, w1, last, again);
    KinSoundRun(last.cfg, again.cfg, base, zs, w1);
    CalmRound(again.cfg, base, zs, w1, again.zones);
  }

  // ----- where the source does less -----

  /** Backends are brought up to date exactly when their number was wrong or they were right already. */
  lemma BackendsUpdatedIff(w: World, k: Key, spec: Resource)
    requires k in w.cloud && w.cloud[k].BackendService? && spec.BackendService?
    requires CreateBackendService(w, k, spec).Done?
    ensures var r := CreateBackendService(w, k, spec);
      && k in r.w.cloud && r.w.cloud[k].BackendService?
      && (Groups(r.w.cloud[k].backends) == Groups(spec.backends) <==>
            |w.cloud[k].backends| != |spec.backends| || Groups(w.cloud[k].backends) == Groups(spec.backends))
  {
    CreateFacts(w, k, spec);
  }

  /** The oracle of a run whose second call takes effect and still fails, and nothing after it fails. */
  function SecondCallFails(): seq<Outcome> { [Outcome(Works, "", false), Outcome(FailsAfter, "", false)] }

  lemma LostRecord(cfg: Config, w: World, z: string)
    requires w.net.groups == None && GroupKey(cfg, z) !in w.cloud && w.oracle == SecondCallFails()
    ensures var (w', ok) := Round(w, ReconcileRound(cfg, [z]));
      !ok && w'.oracle == [] && w'.net == w.net && GroupKey(cfg, z) in w'.cloud
  {
    assert w.oracle[1..] == [Outcome(FailsAfter, "", false)] && w.oracle[1..][1..] == [];
  }

  /** A fault-free Reconcile over other zones neither removes nor records a group that was lost before. */
  lemma StillLost(cfg: Config, base: Cloud, zs: set<string>, w: World, a: string, b: string)
    requires Clean(cfg, base) && SoundRun(cfg, base, zs, w) && b in zs && a != b && Faults(w.oracle) == 0
    requires SubnetThere(cfg, base)
    requires w.net.groups == None && GroupKey(cfg, a) in w.cloud
    ensures var (w', ok) := Round(w, ReconcileRound(cfg, [b]));
      && ok && Faults(w'.oracle) == 0 && SoundRun(cfg, base, zs, w') && GroupKey(cfg, a) in w'.cloud
      && w'.net.groups.Some? && (forall z :: z in w'.net.groups.value <==> z == b)
  {
    hide Sound, SoundLog, Reconcile, SubnetReady, Faults, ExternalSettled, InternalSettled;
    assert w.(net := Reload(w.net)) == w;
    assert b in [b];
    RoundKeeps(cfg, base, zs, w, ReconcileRound(cfg, [b]));
    ReconcileKeeps(cfg, base, zs, w, [b]);
    ReconcileGrows(cfg, base, zs, w, [b]);
    var r := Reconcile(cfg, w, [b]);
    CloseKeeps(cfg, base, zs, w, r.w, r.Done?);
  }

  /** A fault-free Delete returns nil and leaves every group that is not recorded. */
  lemma DeleteSparesUnrecorded(cfg: Config, base: Cloud, zs: set<string>, w: World, a: string, order: seq<string>)
    requires Clean(cfg, base) && SoundRun(cfg, base, zs, w) && Faults(w.oracle) == 0
    requires SubnetThere(cfg, base)
    requires Possible(cfg, w, DeleteRound(cfg, order)) && GroupKey(cfg, a) in w.cloud && a !in order
    ensures var (w', ok) := Round(w, DeleteRound(cfg, order)); ok && GroupKey(cfg, a) in w'.cloud
  {
    hide Sound, SoundLog, DeleteAll, SubnetReady, Faults;
    RoundKeeps(cfg, base, zs, w, DeleteRound(cfg, order));
    assert IsGroup(cfg, GroupKey(cfg, a));
    DeleteAllRecords(cfg, w.(net := Reload(w.net)), order);
  }

  /**
    A lost group: if the first round fails right after creating the group of zone `a`, its record is lost; with `a`
    gone next time, the second round returns nil, Delete returns nil, and the group of `a` is still there.
   */
  lemma LostGroup(cfg: Config, base: Cloud, w: World, a: string, b: string)
    requires Start(cfg, base, w) && w.net.groups == None && w.oracle == SecondCallFails() && a != b
    requires SubnetThere(cfg, base)
    ensures
      var rounds := [ReconcileRound(cfg, [a])] + [ReconcileRound(cfg, [b])];
      && PossibleRun(cfg, w, rounds) && Returned(w, rounds)
      && Possible(cfg, Run(w, rounds), DeleteRound(cfg, [b]))
      && var (w', ok) := Round(Run(w, rounds), DeleteRound(cfg, [b]));
         ok && GroupKey(cfg, a) in w'.cloud && GroupKey(cfg, a) !in base
  {
    hide Round, Sound, SoundLog, SubnetReady;
    var first, second, zs := ReconcileRound(cfg, [a]), ReconcileRound(cfg, [b]), {a, b};
    AppendRun(cfg, w, [], first);
    assert [] + [first] == [first];
    AppendRun(cfg, w, [first], second);
    assert Own(cfg, GroupKey(cfg, a));
    StartIsSound(cfg, base, zs, w);
    LostRecord(cfg, w, a);
    RoundKeeps(cfg, base, zs, w, first);
    var w1 := Round(w, first).0;
    StillLost(cfg, base, zs, w1, a, b);
    var w2 := Round(w1, second).0;
    DeleteSparesUnrecorded(cfg, base, zs, w2, a, [b]);
  }
}
