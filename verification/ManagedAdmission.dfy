/**
  Admission of managed control planes and machine pools (exp/webhooks): defaulting, validation, and what
  holds along every history of admitted objects.
 */
module ManagedAdmission {
  import opened CloudApi
  import opened NodePoolSpec

  // ----- control planes -----

  datatype Plane = Plane(
    clusterName: string, project: string, location: string, autopilot: bool, channel: Option<string>,
    logging: Option<string>, monitoring: Option<string>, version: Option<string>, controlPlaneVersion: Option<string>)

  /** The object's own name and namespace never change. */
  datatype Identity = Identity(name: string, namespace: string)

  const Base36: string := "0123456789abcdefghijklmnopqrstuvwxyz"
  const MaxName: nat := 40

  /** One character per byte of the hash. */
  function Truncated(bytes: seq<nat>): string { seq(|bytes|, i requires 0 <= i < |bytes| => Base36[bytes[i] % 36]) }

  method Base36Truncate(bytes: seq<nat>) returns (chars: string)
    ensures chars == Truncated(bytes)
    ensures forall c :: c in chars ==> c in Base36
  {
    chars := "";
    for i := 0 to |bytes|
      invariant chars == Truncated(bytes[..i]) && forall c :: c in chars ==> c in Base36
    {
      chars := chars + [Base36[bytes[i] % 36]];
    }
    assert bytes[..|bytes|] == bytes;
  }

  /** A hash function that yields as many bytes as asked for. */
  type Hash = (string, nat) -> seq<nat>

  ghost predicate FixedLength(hash: Hash) { forall s, n :: |hash(s, n)| == n }

  function DotsToDashes(s: string): string { seq(|s|, i requires 0 <= i < |s| => if s[i] == '.' then '-' else s[i]) }

  function GenerateName(hash: Hash, id: Identity): string {
    var name := id.namespace + "-" + DotsToDashes(id.name);
    if |name| < MaxName then name else "capg-" + Truncated(hash(name, 32 - |"capg-"|))
  }

  function Default(hash: Hash, id: Identity, p: Plane): Plane {
    if p.clusterName == "" then p.(clusterName := GenerateName(hash, id)) else p
  }

  /** A defaulted name is short enough, and never empty. */
  lemma DefaultedNameFits(hash: Hash, id: Identity, p: Plane)
    requires FixedLength(hash)
    ensures p.clusterName == "" ==> 0 < |Default(hash, id, p).clusterName| < MaxName
    ensures Default(hash, id, Default(hash, id, p)) == Default(hash, id, p)
  {
  }

  /** A short default name is namespace and name, dots written as dashes; a longer one is a hash of 27 characters. */
  lemma DefaultedNameIs(hash: Hash, id: Identity, p: Plane)
    requires FixedLength(hash) && p.clusterName == ""
    ensures var name := Default(hash, id, p).clusterName;
      if |id.namespace| + 1 + |id.name| < 40 then
        && |name| == |id.namespace| + 1 + |id.name| && id.namespace + "-" <= name
        && forall i :: 0 <= i < |id.name| ==>
             name[|id.namespace| + 1 + i] == if id.name[i] == '.' then '-' else id.name[i]
      else
        "capg-" <= name && |name| == 32 && forall i :: 5 <= i < 32 ==> name[i] in Base36
  {
    var full := id.namespace + "-" + DotsToDashes(id.name);
    if |full| >= 40 {
      var name := Default(hash, id, p).clusterName;
      assert forall i :: 5 <= i < 32 ==> name[i] == Truncated(hash(full, 27))[i - 5];
    }
  }

  ghost predicate AlikeDotted(a: string, b: string) {
    && |a| == |b|
    && forall i :: 0 <= i < |a| ==> a[i] == b[i] || (a[i] == '.' && b[i] == '-') || (a[i] == '-' && b[i] == '.')
  }

  /** Within a namespace two objects default to one short cluster name exactly if their names differ in dots alone. */
  lemma DefaultsMeetIff(hash: Hash, namespace: string, a: string, b: string)
    requires |namespace| + 1 + |a| < MaxName && |namespace| + 1 + |b| < MaxName
    ensures GenerateName(hash, Identity(a, namespace)) == GenerateName(hash, Identity(b, namespace)) <==>
              AlikeDotted(a, b)
  {
    var x, y := DotsToDashes(a), DotsToDashes(b);
    var p := namespace + "-";
    assert (p + x)[|p|..] == x && (p + y)[|p|..] == y;
    if x == y {
      forall i | 0 <= i < |a| ensures a[i] == b[i] || (a[i] == '.' && b[i] == '-') || (a[i] == '-' && b[i] == '.') {
        assert x[i] == y[i];
      }
    }
    if AlikeDotted(a, b) { assert x == y; }
  }

  datatype PlaneFault = NameTooLong | ChannelRequired | ForbiddenLogging | ForbiddenMonitoring | BothVersions
                      | NameFixed | ProjectFixed | LocationFixed | ModeFixed | BadLogging | BadMonitoring

  predicate CreateAdmitted(p: Plane) {
    && |p.clusterName| <= MaxName
    && (p.autopilot ==> p.channel.Some? && p.logging.None? && p.monitoring.None?)
    && (p.controlPlaneVersion.None? || p.version.None?)
  }

  method ValidateCreate(p: Plane) returns (errs: seq<PlaneFault>, warnings: nat)
    ensures errs == [] <==> CreateAdmitted(p)
    ensures NameTooLong in errs <==> |p.clusterName| > 40
    ensures ChannelRequired in errs <==> p.autopilot && p.channel.None?
    ensures ForbiddenLogging in errs <==> p.autopilot && p.logging.Some?
    ensures ForbiddenMonitoring in errs <==> p.autopilot && p.monitoring.Some?
    ensures BothVersions in errs <==> BothVersionsSet(p)
    ensures warnings == if p.controlPlaneVersion.Some? && p.version.None? then 1 else 0
  {
    errs, warnings := [], 0;
    if |p.clusterName| > MaxName { errs := errs + [NameTooLong]; }
    if p.autopilot && p.channel.None? { errs := errs + [ChannelRequired]; }
    if p.autopilot && p.logging.Some? { errs := errs + [ForbiddenLogging]; }
    if p.autopilot && p.monitoring.Some? { errs := errs + [ForbiddenMonitoring]; }
    if p.controlPlaneVersion.Some? {
      if p.version.Some? {
        errs := errs + [BothVersions];
      } else {
        warnings := warnings + 1;
      }
    }
  }

  predicate ValidLogging(s: string) { s == "none" || s == "logging.googleapis.com/kubernetes" }

  predicate ValidMonitoring(s: string) { s == "none" || s == "monitoring.googleapis.com/kubernetes" }

  predicate UpdateAdmitted(before: Plane, after: Plane) {
    && after.clusterName == before.clusterName && after.project == before.project
    && after.location == before.location && after.autopilot == before.autopilot
    && (before.autopilot ==> after.logging.None? && after.monitoring.None?)
    && (before.version.None? || after.controlPlaneVersion.None?)
    && (after.logging.Some? ==> ValidLogging(after.logging.value))
    && (after.monitoring.Some? ==> ValidMonitoring(after.monitoring.value))
  }

  /** The update is wrong in this respect. */
  predicate Wrong(before: Plane, after: Plane, f: PlaneFault) {
    match f
    case NameFixed => after.clusterName != before.clusterName
    case ProjectFixed => after.project != before.project
    case LocationFixed => after.location != before.location
    case ModeFixed => after.autopilot != before.autopilot
    case ForbiddenLogging => before.autopilot && after.logging.Some?
    case ForbiddenMonitoring => before.autopilot && after.monitoring.Some?
    case BothVersions => before.version.Some? && after.controlPlaneVersion.Some?
    case BadLogging => after.logging.Some? && !ValidLogging(after.logging.value)
    case BadMonitoring => after.monitoring.Some? && !ValidMonitoring(after.monitoring.value)
    case _ => false
  }

  /** The part of the check that compares the fixed fields. */
  method ValidateFixed(before: Plane, after: Plane) returns (errs: seq<PlaneFault>)
    ensures forall f :: f in errs <==>
              Wrong(before, after, f) && (f.NameFixed? || f.ProjectFixed? || f.LocationFixed? || f.ModeFixed?)
  {
    errs := [];
    if after.clusterName != before.clusterName { errs := errs + [NameFixed]; }
    if after.project != before.project { errs := errs + [ProjectFixed]; }
    if after.location != before.location { errs := errs + [LocationFixed]; }
    if after.autopilot != before.autopilot { errs := errs + [ModeFixed]; }
  }

  /** The part that looks at services and versions. */
  method ValidateServices(before: Plane, after: Plane) returns (errs: seq<PlaneFault>)
    ensures forall f :: f in errs <==>
              Wrong(before, after, f) && !(f.NameFixed? || f.ProjectFixed? || f.LocationFixed? || f.ModeFixed?)
  {
    hide ValidLogging, ValidMonitoring;
    errs := [];
    if before.autopilot && after.logging.Some? { errs := errs + [ForbiddenLogging]; }
    if before.autopilot && after.monitoring.Some? { errs := errs + [ForbiddenMonitoring]; }
    if before.version.Some? && after.controlPlaneVersion.Some? { errs := errs + [BothVersions]; }
    if after.logging.Some? && !ValidLogging(after.logging.value) { errs := errs + [BadLogging]; }
    if after.monitoring.Some? && !ValidMonitoring(after.monitoring.value) { errs := errs + [BadMonitoring]; }
  }

  method ValidateUpdate(before: Plane, after: Plane) returns (errs: seq<PlaneFault>)
    ensures errs == [] <==> UpdateAdmitted(before, after)
    ensures forall f :: f in errs <==> Wrong(before, after, f)
  {
    AdmittedIff(before, after);
    errs := ValidateFixed(before, after);
    var more := ValidateServices(before, after);
    errs := errs + more;
    hide Wrong, UpdateAdmitted;
    if errs != [] { assert errs[0] in errs; }
  }

  /** An update is admitted exactly if it is wrong in no respect. */
  lemma AdmittedIff(before: Plane, after: Plane)
    ensures UpdateAdmitted(before, after) <==> forall f :: !Wrong(before, after, f)
  {
    hide ValidLogging, ValidMonitoring;
    if forall f :: !Wrong(before, after, f) {
      assert !Wrong(before, after, NameFixed) && !Wrong(before, after, ProjectFixed);
      assert !Wrong(before, after, LocationFixed) && !Wrong(before, after, ModeFixed);
      assert !Wrong(before, after, ForbiddenLogging) && !Wrong(before, after, ForbiddenMonitoring);
      assert !Wrong(before, after, BothVersions) && !Wrong(before, after, BadLogging);
      assert !Wrong(before, after, BadMonitoring);
    }
  }

  /** One admitted create and any number of admitted updates; every request is defaulted first. */
  ghost predicate History(hash: Hash, id: Identity, requests: seq<Plane>) {
    && requests != [] && CreateAdmitted(Default(hash, id, requests[0]))
    && (forall i :: 0 < i < |requests| ==>
          UpdateAdmitted(Default(hash, id, requests[i - 1]), Default(hash, id, requests[i])))
  }

  ghost function Object(hash: Hash, id: Identity, requests: seq<Plane>, i: nat): Plane
    requires i < |requests|
  {
    Default(hash, id, requests[i])
  }

  /**
    Along a history: identity, project, location and mode are fixed, names fit, autopilot excludes both services and
    was created with a channel, and after the creation each service is one of two.
   */
  lemma {:induction false} HistoryKeeps(hash: Hash, id: Identity, requests: seq<Plane>, i: nat)
    requires FixedLength(hash) && History(hash, id, requests) && i < |requests|
    ensures var first, p := Object(hash, id, requests, 0), Object(hash, id, requests, i);
      && p.clusterName == first.clusterName && p.project == first.project
      && p.location == first.location && p.autopilot == first.autopilot
      && p.clusterName != "" && |p.clusterName| <= 40
      && (p.autopilot ==> first.channel.Some? && p.logging.None? && p.monitoring.None?)
      && (i > 0 && p.logging.Some? ==> p.logging.value in {"none", "logging.googleapis.com/kubernetes"})
      && (i > 0 && p.monitoring.Some? ==> p.monitoring.value in {"none", "monitoring.googleapis.com/kubernetes"})
  {
    DefaultedNameFits(hash, id, requests[0]);
    if i > 0 { HistoryKeeps(hash, id, requests, i - 1); }
  }

  /**
    The services are not looked at on creation.  An object created with an unknown one is stuck: it admits no update
    that leaves the service as it is, not even one that changes nothing.
   */
  lemma CreatedCanStayIff(p: Plane)
    requires CreateAdmitted(p)
    ensures UpdateAdmitted(p, p) <==>
      && (p.logging.Some? ==> p.logging.value == "none" || p.logging.value == "logging.googleapis.com/kubernetes")
      && (p.monitoring.Some? ==>
            p.monitoring.value == "none" || p.monitoring.value == "monitoring.googleapis.com/kubernetes")
  {
  }

  /** The channel that an autopilot cluster must be created with can be dropped by the next update. */
  lemma ChannelCanBeDropped(hash: Hash, id: Identity, p: Plane)
    requires p.autopilot && CreateAdmitted(p) && p.clusterName != ""
    ensures History(hash, id, [p, p.(channel := None)])
  {
  }

  predicate BothVersionsSet(p: Plane) { p.version.Some? && p.controlPlaneVersion.Some? }

  /**
    Both version fields can only be set together right after an object without Version, and not for two updates in a
    row.
   */
  lemma BothVersionsOnlyOnce(hash: Hash, id: Identity, requests: seq<Plane>, i: nat)
    requires History(hash, id, requests) && i < |requests| && BothVersionsSet(Object(hash, id, requests, i))
    ensures i > 0 && Object(hash, id, requests, i - 1).version.None?
    ensures i + 1 < |requests| ==> Object(hash, id, requests, i + 1).controlPlaneVersion.None?
  {
  }

  /**
    An update to an object with both fields is admitted if and only if Version was unset and it is admissible
    otherwise.
   */
  lemma BothVersionsAdmittedIff(before: Plane, after: Plane)
    requires BothVersionsSet(after)
    ensures UpdateAdmitted(before, after) <==>
              before.version.None? && UpdateAdmitted(before, after.(controlPlaneVersion := None))
  {
  }

  // ----- util/webhook/validator.go -----

  datatype Verdict = Accepted | CannotUnset | CannotChange | CannotSet

  /** `zero` is the zero value of the field's type. */
  function ValidateImmutable<T(==)>(zero: T, oldVal: T, newVal: T): (v: Verdict)
    ensures v == Accepted <==> oldVal == newVal
    ensures v == CannotUnset <==> oldVal != newVal && newVal == zero
    ensures v == CannotSet <==> oldVal != newVal && oldVal == zero
  {
    if oldVal != zero then
      if newVal == zero then CannotUnset else if oldVal != newVal then CannotChange else Accepted
    else if newVal != zero then CannotSet else Accepted
  }

  // ----- machine pools -----

  datatype Management = Management(autoUpgrade: bool, autoRepair: bool)

  datatype NodeSecurity = NodeSecurity(
    secureBoot: Option<bool>, integrityMonitoring: Option<bool>, sandboxType: Option<string>, email: Option<string>,
    scopes: Option<seq<string>>)

  const NoSecurity := NodeSecurity(None, None, None, None, None)

  datatype PoolRequest = PoolRequest(
    nodePoolName: string, instanceType: Option<string>, machineType: Option<string>, diskSizeGb: Option<int>,
    diskType: Option<string>, localSsdCount: Option<int>, management: Option<Management>, maxPodsPerNode: Option<int>,
    podRangeName: Option<string>, createPodRange: Option<bool>, podRangeCidrBlock: Option<string>,
    nodeSecurity: NodeSecurity, scaling: Option<Scaling>)

  predicate ScalingValid(s: Scaling) {
    && (s.enable == Some(false) ==> s.min.None? && s.max.None? && s.policy.None?)
    && (s.min.Some? ==> s.min.value >= 0)
    && (s.min.Some? && s.max.Some? ==> s.min.value <= s.max.value)
  }

  datatype ScalingFault = MinForbidden | MaxForbidden | PolicyForbidden | MinNegative | MaxBelowMin

  method ValidateScaling(s: Scaling) returns (errs: seq<ScalingFault>)
    ensures errs == [] <==> ScalingValid(s)
    ensures MinForbidden in errs <==> s.enable == Some(false) && s.min.Some?
    ensures MaxForbidden in errs <==> s.enable == Some(false) && s.max.Some?
    ensures PolicyForbidden in errs <==> s.enable == Some(false) && s.policy.Some?
    ensures MinNegative in errs <==> s.min.Some? && s.min.value < 0
    ensures MaxBelowMin in errs <==> s.min.Some? && s.max.Some? && s.max.value < s.min.value
  {
    errs := [];
    if s.enable.Some? && !s.enable.value {
      if s.min.Some? { errs := errs + [MinForbidden]; }
      if s.max.Some? { errs := errs + [MaxForbidden]; }
      if s.policy.Some? { errs := errs + [PolicyForbidden]; }
    }
    if s.min.Some? {
      if s.min.value < 0 { errs := errs + [MinNegative]; }
      if s.max.Some? && s.max.value < s.min.value { errs := errs + [MaxBelowMin]; }
    }
  }

  /** Validation misses the defaults: the converted bounds are in order exactly when the unset one has room. */
  lemma ConvertedBoundsIff(s: Scaling)
    requires ScalingValid(s)
    ensures var a := ConvertAutoscaling(Some(s));
      a.totalMin <= a.totalMax <==>
        || s.enable == Some(false)
        || ((s.max.None? ==> s.min.GetOr(0) <= 1) && (s.min.None? ==> s.max.GetOr(1) >= 0))
  {
  }

  /** Every field an update may not touch. */
  predicate SameImmutables(a: PoolRequest, b: PoolRequest) { a == b.(scaling := a.scaling) }

  predicate PoolCreateAdmitted(p: PoolRequest) {
    && |p.nodePoolName| <= MaxName && (p.scaling.Some? ==> ScalingValid(p.scaling.value))
    && p.diskSizeGb.GetOr(0) >= 0 && p.localSsdCount.GetOr(0) >= 0 && p.maxPodsPerNode.GetOr(0) >= 0
  }

  datatype PoolFault = PoolNameTooLong | Negative(field: string)

  method ValidatePoolCreate(p: PoolRequest) returns (scaling: seq<ScalingFault>, errs: seq<PoolFault>)
    ensures scaling == [] && errs == [] <==> PoolCreateAdmitted(p)
    ensures PoolNameTooLong in errs <==> |p.nodePoolName| > 40
    ensures Negative("diskSizeGb") in errs <==> p.diskSizeGb.Some? && p.diskSizeGb.value < 0
    ensures Negative("localSsdCount") in errs <==> p.localSsdCount.Some? && p.localSsdCount.value < 0
    ensures Negative("maxPodsPerNode") in errs <==> p.maxPodsPerNode.Some? && p.maxPodsPerNode.value < 0
  {
    scaling, errs := [], [];
    if |p.nodePoolName| > MaxName { errs := errs + [PoolNameTooLong]; }
    if p.scaling.Some? { scaling := ValidateScaling(p.scaling.value); }
    if p.diskSizeGb.Some? && p.diskSizeGb.value < 0 { errs := errs + [Negative("diskSizeGb")]; }
    if p.localSsdCount.Some? && p.localSsdCount.value < 0 { errs := errs + [Negative("localSsdCount")]; }
    if p.maxPodsPerNode.Some? && p.maxPodsPerNode.value < 0 { errs := errs + [Negative("maxPodsPerNode")]; }
  }

  /** Keeps the list of errors; an accepted field adds none. */
  function Noted(errs: seq<Verdict>, v: Verdict): (r: seq<Verdict>)
    ensures r == [] <==> errs == [] && v == Accepted
  {
    if v == Accepted then errs else errs + [v]
  }

  method ValidatePoolUpdate(before: PoolRequest, after: PoolRequest)
    returns (scaling: seq<ScalingFault>, errs: seq<Verdict>)
    ensures scaling == [] && errs == [] <==>
              SameImmutables(before, after) && (after.scaling.Some? ==> ScalingValid(after.scaling.value))
  {
    hide Noted, ValidateImmutable;
    scaling, errs := [], [];
    if after.scaling.Some? {
      scaling := ValidateScaling(after.scaling.value);
    }
    errs := Noted(errs, ValidateImmutable(None, before.instanceType, after.instanceType));
    errs := Noted(errs, ValidateImmutable("", before.nodePoolName, after.nodePoolName));
    errs := Noted(errs, ValidateImmutable(None, before.machineType, after.machineType));
    errs := Noted(errs, ValidateImmutable(None, before.diskSizeGb, after.diskSizeGb));
    errs := Noted(errs, ValidateImmutable(None, before.diskType, after.diskType));
    errs := Noted(errs, ValidateImmutable(None, before.localSsdCount, after.localSsdCount));
    errs := Noted(errs, ValidateImmutable(None, before.management, after.management));
    errs := Noted(errs, ValidateImmutable(None, before.maxPodsPerNode, after.maxPodsPerNode));
    errs := Noted(errs, ValidateImmutable(None, before.podRangeName, after.podRangeName));
    errs := Noted(errs, ValidateImmutable(None, before.createPodRange, after.createPodRange));
    errs := Noted(errs, ValidateImmutable(None, before.podRangeCidrBlock, after.podRangeCidrBlock));
    errs := Noted(errs, ValidateImmutable(NoSecurity, before.nodeSecurity, after.nodeSecurity));
  }

  ghost predicate PoolHistory(requests: seq<PoolRequest>) {
    && requests != [] && PoolCreateAdmitted(requests[0])
    && (forall i :: 0 < i < |requests| ==>
          && SameImmutables(requests[i - 1], requests[i])
          && (requests[i].scaling.Some? ==> ScalingValid(requests[i].scaling.value)))
  }

  /**
    Along a history of a machine pool every immutable field stays as created, name and sizes stay in their bounds, and
    so does the scaling.
   */
  lemma {:induction false} PoolHistoryKeeps(requests: seq<PoolRequest>, i: nat)
    requires PoolHistory(requests) && i < |requests|
    ensures SameImmutables(requests[0], requests[i]) && |requests[i].nodePoolName| <= 40
    ensures var p := requests[i];
      && (p.diskSizeGb.Some? ==> p.diskSizeGb.value >= 0) && (p.localSsdCount.Some? ==> p.localSsdCount.value >= 0)
      && (p.maxPodsPerNode.Some? ==> p.maxPodsPerNode.value >= 0)
    ensures requests[i].scaling.Some? ==>
              var s := requests[i].scaling.value;
              && (s.enable == Some(false) ==> s.min.None? && s.max.None? && s.policy.None?)
              && (s.min.Some? ==> 0 <= s.min.value && (s.max.Some? ==> s.min.value <= s.max.value))
  {
    if i > 0 { PoolHistoryKeeps(requests, i - 1); }
  }
}
