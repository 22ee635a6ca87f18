/**
  The GCPCluster spec: the updates that admission lets through (webhooks/gcpcluster_webhook.go), and
  the failure domains that a spec selects.
 */
module GCPClusterAdmission {
  import opened CloudApi
  import opened LoadBalancerSpec

  datatype LoadBalancer = LoadBalancer(
    groupTag: Option<string>, lbType: Option<LoadBalancerType>, internal: Option<InternalLoadBalancer>)

  datatype Protocol = TCP | UDP | OtherProtocol(name: string)

  datatype Descriptor = Descriptor(protocol: Protocol, ports: seq<string>)

  datatype FirewallRule = FirewallRule(allowed: seq<Descriptor>, denied: seq<Descriptor>)

  datatype ClusterSpec = ClusterSpec(
    project: string, region: string, credentials: Option<string>, loadBalancer: LoadBalancer, mtu: int,
    rules: seq<FirewallRule>, failureDomains: seq<string>, backendPort: Option<int>, subnets: seq<SubnetSpec>,
    labels: Option<Labels>)

  /** What a round learns besides the spec: the owner's port and the network link recorded by the network service. */
  datatype Facts = Facts(apiServerPort: int, network: Option<string>)

  function ConfigOf(name: string, spec: ClusterSpec, facts: Facts): Config {
    Config(name, spec.region, spec.loadBalancer.lbType, spec.loadBalancer.internal, spec.loadBalancer.groupTag,
           spec.backendPort, facts.apiServerPort, spec.subnets, facts.network, spec.labels)
  }

  // ----- admission -----

  predicate PortsAllowed(d: Descriptor) { d.protocol.TCP? || d.protocol.UDP? || d.ports == [] }

  predicate RuleAllowed(r: FirewallRule) {
    (forall d :: d in r.allowed ==> PortsAllowed(d)) && (forall d :: d in r.denied ==> PortsAllowed(d))
  }

  /** The updates that leave a cluster admissible. */
  predicate Admitted(before: ClusterSpec, after: ClusterSpec) {
    && after.project == before.project && after.region == before.region
    && after.credentials == before.credentials && after.loadBalancer == before.loadBalancer
    && 1300 <= after.mtu <= 8896
    && (forall r :: r in after.rules ==> RuleAllowed(r))
  }

  datatype FieldError =
    | Immutable(field: string) | MtuTooSmall | MtuTooLarge | AllowedPorts(rule: nat, index: nat)
    | DeniedPorts(rule: nat, index: nat)

  /** Ports belong to TCP and UDP alone. */
  ghost predicate StrayPorts(d: Descriptor) { d.ports != [] && d.protocol != TCP && d.protocol != UDP }

  /** What each reported error complains of. */
  ghost predicate Violates(before: ClusterSpec, after: ClusterSpec, e: FieldError) {
    match e
    case Immutable(field) =>
      || (field == "project" && after.project != before.project)
      || (field == "region" && after.region != before.region)
      || (field == "credentialsRef" && after.credentials != before.credentials)
      || (field == "loadBalancer" && after.loadBalancer != before.loadBalancer)
    case MtuTooSmall => after.mtu < 1300
    case MtuTooLarge => after.mtu > 8896
    case AllowedPorts(i, j) =>
      i < |after.rules| && j < |after.rules[i].allowed| && StrayPorts(after.rules[i].allowed[j])
    case DeniedPorts(i, j) =>
      i < |after.rules| && j < |after.rules[i].denied| && StrayPorts(after.rules[i].denied[j])
  }

  lemma AdmittedIff(before: ClusterSpec, after: ClusterSpec)
    ensures Admitted(before, after) <==> forall e :: !Violates(before, after, e)
  {
    if Admitted(before, after) {
      forall e ensures !Violates(before, after, e) {
        if e.AllowedPorts? && e.rule < |after.rules| && e.index < |after.rules[e.rule].allowed| {
          assert RuleAllowed(after.rules[e.rule]);
          assert after.rules[e.rule].allowed[e.index] in after.rules[e.rule].allowed;
        }
        if e.DeniedPorts? && e.rule < |after.rules| && e.index < |after.rules[e.rule].denied| {
          assert RuleAllowed(after.rules[e.rule]);
          assert after.rules[e.rule].denied[e.index] in after.rules[e.rule].denied;
        }
      }
    }
    if forall e :: !Violates(before, after, e) {
      assert !Violates(before, after, Immutable("project")) && !Violates(before, after, Immutable("region"))
        && !Violates(before, after, Immutable("credentialsRef")) && !Violates(before, after, Immutable("loadBalancer"));
      assert !Violates(before, after, MtuTooSmall) && !Violates(before, after, MtuTooLarge);
      forall r | r in after.rules ensures RuleAllowed(r) {
        var i: nat :| i < |after.rules| && after.rules[i] == r;
        forall j: nat | j < |r.allowed| ensures PortsAllowed(r.allowed[j]) {
          assert !Violates(before, after, AllowedPorts(i, j));
        }
        forall j: nat | j < |r.denied| ensures PortsAllowed(r.denied[j]) {
          assert !Violates(before, after, DeniedPorts(i, j));
        }
      }
    }
  }

  method PortFaults(ds: seq<Descriptor>) returns (bad: seq<nat>)
    ensures forall j: nat :: j in bad <==> j < |ds| && !PortsAllowed(ds[j])
  {
    bad := [];
    for i := 0 to |ds|
      invariant forall j: nat :: j in bad <==> j < i && !PortsAllowed(ds[j])
    {
      if !PortsAllowed(ds[i]) {
        bad := bad + [i];
      }
    }
  }

  predicate InRules(e: FieldError, i: nat) { (e.AllowedPorts? || e.DeniedPorts?) ==> e.rule < i }

  method ValidateUpdate(before: ClusterSpec, after: ClusterSpec) returns (errs: seq<FieldError>)
    ensures forall e :: e in errs <==> Violates(before, after, e)
    ensures errs == [] <==> Admitted(before, after)
  {
    errs := [];
    if after.project != before.project { errs := errs + [Immutable("project")]; }
    if after.region != before.region { errs := errs + [Immutable("region")]; }
    if after.credentials != before.credentials { errs := errs + [Immutable("credentialsRef")]; }
    if after.loadBalancer != before.loadBalancer { errs := errs + [Immutable("loadBalancer")]; }
    if after.mtu < 1300 { errs := errs + [MtuTooSmall]; }
    if after.mtu > 8896 { errs := errs + [MtuTooLarge]; }
    for i := 0 to |after.rules|
      invariant forall e :: e in errs <==> Violates(before, after, e) && InRules(e, i)
    {
      var allowed := PortFaults(after.rules[i].allowed);
      var denied := PortFaults(after.rules[i].denied);
      errs := errs + RuleErrors(i, allowed, denied);
    }
    AdmittedIff(before, after);
    assert forall e :: Violates(before, after, e) ==> InRules(e, |after.rules|);
    assert errs != [] ==> errs[0] in errs;
  }

  function RuleErrors(i: nat, allowed: seq<nat>, denied: seq<nat>): (errs: seq<FieldError>)
    ensures forall e :: e in errs <==>
              || (e.AllowedPorts? && e.rule == i && e.index in allowed)
              || (e.DeniedPorts? && e.rule == i && e.index in denied)
  {
    var a := seq(|allowed|, j requires 0 <= j < |allowed| => AllowedPorts(i, allowed[j]));
    var d := seq(|denied|, j requires 0 <= j < |denied| => DeniedPorts(i, denied[j]));
    assert forall j :: j in allowed ==> AllowedPorts(i, j) in a by {
      forall j | j in allowed ensures AllowedPorts(i, j) in a {
        var n :| 0 <= n < |allowed| && allowed[n] == j;
        assert a[n] == AllowedPorts(i, j);
      }
    }
    assert forall j :: j in denied ==> DeniedPorts(i, j) in d by {
      forall j | j in denied ensures DeniedPorts(i, j) in d {
        var n :| 0 <= n < |denied| && denied[n] == j;
        assert d[n] == DeniedPorts(i, j);
      }
    }
    a + d
  }

  // ----- failure domains -----

  ghost function DomainsOf(spec: ClusterSpec, zones: seq<string>): set<string> {
    set z | z in zones && (spec.failureDomains == [] || z in spec.failureDomains)
  }

  method FailureDomains(spec: ClusterSpec, zones: seq<string>) returns (domains: set<string>)
    ensures domains == DomainsOf(spec, zones)
    ensures spec.failureDomains == [] ==> forall z :: z in domains <==> z in zones
    ensures spec.failureDomains != [] ==> forall z :: z in domains <==> z in zones && z in spec.failureDomains
  {
    domains := {};
    for i := 0 to |zones|
      invariant domains == DomainsOf(spec, zones[..i])
    {
      assert zones[..i + 1] == zones[..i] + [zones[i]];
      if |spec.failureDomains| > 0 {
        ghost var earlier := domains;
        for j := 0 to |spec.failureDomains|
          invariant domains == earlier + (if zones[i] in spec.failureDomains[..j] then {zones[i]} else {})
        {
          if spec.failureDomains[j] == zones[i] {
            domains := domains + {zones[i]};
          }
        }
        assert spec.failureDomains[..|spec.failureDomains|] == spec.failureDomains;
      } else {
        domains := domains + {zones[i]};
      }
    }
    assert zones[..|zones|] == zones;
  }
}
