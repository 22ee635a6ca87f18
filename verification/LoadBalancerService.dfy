/**
  The load balancer service as the source writes it: an object that calls the cloud, updates the
  cluster's status and endpoint in place, and returns at the first error.  Every method is proved
  equal to its function in LoadBalancerSpec, so the run theorems hold for it.
 */
module LoadBalancerService {
  import opened CloudApi
  import opened LoadBalancerSpec

  ghost predicate Agrees<T>(step: Step<T>, w: World, err: Option<Error>, value: T) {
    && step.w == w
    && (if err.None? then step.Done? && step.value == value else step.Failed? && step.error == err.value)
  }

  class Service {
    const cfg: Config
    const finalizer: bool
    var cloud: Cloud
    var net: NetworkStatus
    var host: string
    var oracle: seq<Outcome>
    var log: seq<Event>

    constructor (cfg: Config, w: World)
      ensures this.cfg == cfg && State() == w
    {
      this.cfg, finalizer, log := cfg, w.finalizer, w.log;
      cloud, net, host, oracle := w.cloud, w.net, w.host, w.oracle;
    }

    function State(): World
      reads this
    {
      World(cloud, net, host, finalizer, oracle, log)
    }

    // ----- the compute API -----

    /** Takes the next outcome of the oracle and leaves `c` as the cloud if the request takes effect. */
    method Call(request: Request, c: Cloud) returns (ok: bool)
      modifies this
      ensures Agrees(Mutation(old(State()), request, c), State(), if ok then None else Some(Unavailable), ())
    {
      var outcome := if oracle == [] then Outcome(Works, "", false) else oracle[0];
      ok := outcome.fault.Works?;
      if !outcome.fault.FailsBefore? {
        cloud := c;
      }
      oracle := if oracle == [] then [] else oracle[1..];
      log := log + [Event(request, cloud, finalizer)];
    }

    method Get(k: Key) returns (err: Option<Error>, found: Found)
      modifies this
      ensures Agrees(GetCall(old(State()), k), State(), err, found)
    {
      var ok := Call(Request.Get(k), cloud);
      found := Found(k, Subnetwork);
      if !ok {
        err := Some(Unavailable);
      } else if k !in cloud {
        err := Some(NotFound);
      } else {
        err, found := None, Found(k, cloud[k]);
      }
    }

    method Insert(k: Key, spec: Resource) returns (err: Option<Error>)
      modifies this
      ensures Agrees(InsertCall(old(State()), k, spec), State(), err, ())
    {
      var outcome := if oracle == [] then Outcome(Works, "", false) else oracle[0];
      var present := k in cloud;
      var ok := Call(Request.Insert(k), if present then cloud else cloud[k := Stored(spec, outcome)]);
      err := if !ok then Some(Unavailable) else if present then Some(AlreadyExists) else None;
    }

    method Update(k: Key, r: Resource) returns (err: Option<Error>)
      modifies this
      ensures Agrees(UpdateCall(old(State()), k, r), State(), err, ())
    {
      var missing := k !in cloud;
      var ok := Call(Request.Update(k), if missing then cloud else cloud[k := r]);
      err := if !ok then Some(Unavailable) else if missing then Some(NotFound) else None;
    }

    method SetLabels(k: Key) returns (err: Option<Error>)
      modifies this
      ensures Agrees(SetLabelsCall(old(State()), k, cfg.labels), State(), err, ())
    {
      var missing := k !in cloud;
      var ok := Call(Request.SetLabels(k), if missing then cloud else cloud[k := WithLabels(cloud[k], cfg.labels)]);
      err := if !ok then Some(Unavailable) else if missing then Some(NotFound) else None;
    }

    method Delete(k: Key) returns (err: Option<Error>)
      modifies this
      ensures Agrees(DeleteCall(old(State()), k), State(), err, ())
    {
      var missing, refused := k !in cloud, k.kind.InstanceGroups? && InUse(cloud, k);
      var ok := Call(Request.Delete(k), if missing || refused then cloud else cloud - {k});
      err := if !ok then Some(Unavailable) else if missing then Some(NotFound)
             else if refused then Some(ResourceInUse) else None;
    }

    // ----- create or get -----

    method CreateOrGetResource(k: Key, spec: Resource) returns (err: Option<Error>, found: Found)
      modifies this
      ensures Agrees(CreateOrGet(old(State()), k, spec), State(), err, found)
      ensures err == None ==> found.link == k
    {
      err, found := Get(k);
      if err != None {
        if err.value != NotFound {
          return;
        }
        err := Insert(k, spec);
        if err != None {
          return;
        }
        err, found := Get(k);
      }
    }

    method CreateOrGetInstanceGroups(zones: seq<string>) returns (err: Option<Error>, groups: seq<Link>)
      modifies this
      ensures Agrees(CreateGroups(cfg, old(State()), zones), State(), err, groups)
    {
      hide CreateOrGet, GroupKey;
      groups, err := [], None;
      var shared := net.groups.Some?;
      var groupsMap := net.groups.GetOr(map[]);
      for i := 0 to |zones|
        invariant err == None
        invariant shared <==> old(net.groups).Some?
        invariant groups == GroupLinks(cfg, zones[..i])
        invariant CreateGroupsFrom(cfg, old(State()), zones, old(net.groups).GetOr(map[]), shared)
               == CreateGroupsFrom(cfg, State(), zones[i..], groupsMap, shared)
      {
        assert zones[i..][1..] == zones[i + 1..] && zones[..i + 1] == zones[..i] + [zones[i]];
        var found;
        err, found := CreateOrGetResource(GroupKey(cfg, zones[i]), GroupSpec(cfg));
        if err != None {
          return;
        }
        groups := groups + [found.link];
        groupsMap := groupsMap[zones[i] := found.link];
        if shared {
          net := net.(groups := Some(groupsMap));
        }
      }
      net := net.(groups := Some(groupsMap));
      assert zones[..|zones|] == zones;
    }

    method BuildBackends(mode: BalancingMode, limit: int, groups: seq<Link>) returns (backends: seq<Backend>)
      ensures backends == BackendsFor(mode, limit, groups)
    {
      backends := [];
      for i := 0 to |groups|
        invariant backends == BackendsFor(mode, limit, groups[..i])
      {
        backends := backends + [Backend(mode, groups[i], limit)];
      }
      assert groups[..|groups|] == groups;
    }

    method CreateOrGetBackendService(k: Key, spec: Resource) returns (err: Option<Error>, service: Found)
      modifies this
      ensures Agrees(CreateBackendService(old(State()), k, spec), State(), err, service)
    {
      err, service := CreateOrGetResource(k, spec);
      if err != None {
        return;
      }
      if |BackendsOf(service.resource)| != |BackendsOf(spec)| {
        service := Found(service.link, WithBackends(service.resource, BackendsOf(spec)));
        err := Update(k, service.resource);
      }
    }

    method CreateOrGetForwardingRule(k: Key, spec: Resource) returns (err: Option<Error>, rule: Found)
      modifies this
      ensures Agrees(CreateForwardingRule(cfg, old(State()), k, spec), State(), err, rule)
    {
      err, rule := CreateOrGetResource(k, spec);
      if err != None {
        return;
      }
      if LabelsOf(rule.resource) != cfg.labels {
        err := SetLabels(k);
      }
    }

    method FindSubnet() returns (err: Option<Error>, subnet: Link)
      modifies this
      ensures Agrees(GetSubnet(cfg, old(State()), cfg.subnets), State(), err, subnet)
    {
      subnet := Key(Subnetworks, Global, "");
      for i := 0 to |cfg.subnets|
        invariant GetSubnet(cfg, old(State()), cfg.subnets) == GetSubnet(cfg, State(), cfg.subnets[i..])
      {
        assert cfg.subnets[i..][1..] == cfg.subnets[i + 1..];
        var found;
        err, found := Get(SubnetKey(cfg, cfg.subnets[i]));
        if err != None {
          return;
        }
        if WantedSubnet(cfg) == "" || HasSuffix(found.link.name, WantedSubnet(cfg)) {
          subnet := found.link;
          return;
        }
      }
      err := Some(NoSubnet);
    }

    // ----- the create chains -----

    method CreateExternalLoadBalancer(groups: seq<Link>) returns (err: Option<Error>)
      modifies this
      ensures Agrees(CreateExternal(cfg, old(State()), groups), State(), err, ())
    {
      hide CreateOrGet, CreateBackendService, CreateForwardingRule, BackendsFor;
      var check, service, proxy, address, rule;
      err, check := CreateOrGetResource(ExternalKey(cfg, HealthChecks), HealthCheck(""));
      if err != None {
        return;
      }
      net := net.(external := net.external.(healthCheck := Some(check.link)));

      var mode := if Type(cfg).InternalExternal? then Connection else Utilization;
      var backends := BuildBackends(mode, if mode == Connection then 1000 else 0, groups);
      err, service := CreateOrGetBackendService(
        ExternalKey(cfg, BackendServices),
        BackendService(ExternalScheme, "apiserver", "", None, backends, [check.link]));
      if err != None {
        return;
      }
      net := net.(external := net.external.(backendService := Some(service.link)));

      err, proxy := CreateOrGetResource(ExternalKey(cfg, TargetTcpProxies), TargetTcpProxy(service.link));
      if err != None {
        return;
      }
      net := net.(external := net.external.(targetProxy := Some(proxy.link)));

      err, address := CreateOrGetResource(ExternalKey(cfg, Addresses), Address(ExternalScheme, "", "", None, ""));
      if err != None {
        return;
      }
      net := net.(external := net.external.(address := Some(address.link)));
      host := IpOf(address.resource);

      err, rule := CreateOrGetForwardingRule(
        ExternalKey(cfg, ForwardingRules), ExternalRuleSpec(cfg, proxy.link, address.link));
      if err != None {
        return;
      }
      net := net.(external := net.external.(forwardingRule := Some(rule.link)));
    }

    method CreateOrGetInternalAddress() returns (err: Option<Error>, address: Link)
      modifies this
      ensures Agrees(CreateInternalAddress(cfg, old(State())), State(), err, address)
    {
      var subnet, found;
      err, subnet := FindSubnet();
      address := subnet;
      if err != None {
        return;
      }
      err, found := CreateOrGetResource(InternalKey(cfg, Addresses), InternalAddressSpec(cfg, subnet));
      if err != None {
        return;
      }
      address := found.link;
      net := net.(internal := net.internal.(address := Some(address)));
      if Type(cfg).Internal? {
        host := IpOf(found.resource);
      }
    }

    method CreateOrGetInternalRule(service: Link, address: Link) returns (err: Option<Error>)
      modifies this
      ensures Agrees(CreateInternalRule(cfg, old(State()), service, address), State(), err, ())
    {
      var subnet, rule;
      err, subnet := FindSubnet();
      if err != None {
        return;
      }
      err, rule := CreateOrGetForwardingRule(
        InternalKey(cfg, ForwardingRules), InternalRuleSpec(cfg, service, address, subnet));
      if err != None {
        return;
      }
      net := net.(internal := net.internal.(forwardingRule := Some(rule.link)));
    }

    method CreateInternalLoadBalancer(groups: seq<Link>) returns (err: Option<Error>)
      modifies this
      ensures Agrees(CreateInternal(cfg, old(State()), groups), State(), err, ())
    {
      hide CreateOrGet, CreateBackendService, CreateForwardingRule, GetSubnet, BackendsFor;
      var check, service, address;
      err, check := CreateOrGetResource(InternalKey(cfg, HealthChecks), HealthCheck(cfg.region));
      if err != None {
        return;
      }
      net := net.(internal := net.internal.(healthCheck := Some(check.link)));

      var backends := BuildBackends(Connection, 0, groups);
      err, service := CreateOrGetBackendService(
        InternalKey(cfg, BackendServices),
        BackendService(InternalScheme, "", cfg.region, cfg.network, backends, [check.link]));
      if err != None {
        return;
      }
      net := net.(internal := net.internal.(backendService := Some(service.link)));

      err, address := CreateOrGetInternalAddress();
      if err != None {
        return;
      }
      err := CreateOrGetInternalRule(service.link, address);
    }

    method ReconcileLoadBalancers(zones: seq<string>) returns (err: Option<Error>)
      modifies this
      ensures Agrees(Reconcile(cfg, old(State()), zones), State(), err, ())
    {
      hide CreateGroups, CreateExternal, CreateInternal;
      var groups;
      err, groups := CreateOrGetInstanceGroups(zones);
      if err != None {
        return;
      }
      if WantsExternal(cfg) {
        err := CreateExternalLoadBalancer(groups);
        if err != None {
          return;
        }
      }
      if WantsInternal(cfg) {
        err := CreateInternalLoadBalancer(groups);
      }
    }

    // ----- the delete chains -----

    method DeleteResource(k: Key) returns (err: Option<Error>)
      modifies this
      ensures Agrees(DeleteIfPresent(old(State()), k), State(), err, ())
    {
      err := Delete(k);
      if err == Some(NotFound) {
        err := None;
      }
    }

    method DeleteExternalLoadBalancer() returns (err: Option<Error>)
      modifies this
      ensures Agrees(DeleteExternal(cfg, old(State())), State(), err, ())
    {
      hide DeleteIfPresent;
      err := DeleteResource(ExternalKey(cfg, ForwardingRules));
      if err != None {
        return;
      }
      net := net.(external := net.external.(forwardingRule := None));
      err := DeleteResource(ExternalKey(cfg, Addresses));
      if err != None {
        return;
      }
      net := net.(external := net.external.(address := None));
      err := DeleteResource(ExternalKey(cfg, TargetTcpProxies));
      if err != None {
        return;
      }
      net := net.(external := net.external.(targetProxy := None));
      err := DeleteResource(ExternalKey(cfg, BackendServices));
      if err != None {
        return;
      }
      net := net.(external := net.external.(backendService := None));
      err := DeleteResource(ExternalKey(cfg, HealthChecks));
      if err != None {
        return;
      }
      net := net.(external := net.external.(healthCheck := None));
    }

    method DeleteInternalLoadBalancer() returns (err: Option<Error>)
      modifies this
      ensures Agrees(DeleteInternal(cfg, old(State())), State(), err, ())
    {
      hide DeleteIfPresent;
      err := DeleteResource(InternalKey(cfg, ForwardingRules));
      if err != None {
        return;
      }
      net := net.(internal := net.internal.(forwardingRule := None));
      err := DeleteResource(InternalKey(cfg, Addresses));
      if err != None {
        return;
      }
      net := net.(internal := net.internal.(address := None));
      err := DeleteResource(InternalKey(cfg, BackendServices));
      if err != None {
        return;
      }
      net := net.(internal := net.internal.(backendService := None));
      err := DeleteResource(InternalKey(cfg, HealthChecks));
      if err != None {
        return;
      }
      net := net.(internal := net.internal.(healthCheck := None));
    }

    method DeleteInstanceGroups(order: seq<string>) returns (err: Option<Error>)
      modifies this
      ensures Agrees(DeleteGroups(cfg, old(State()), order), State(), err, ())
    {
      for i := 0 to |order|
        invariant DeleteGroups(cfg, old(State()), order) == DeleteGroups(cfg, State(), order[i..])
      {
        assert order[i..][1..] == order[i + 1..];
        err := Delete(GroupKey(cfg, order[i]));
        if err != None {
          if err.value != NotFound {
            return;
          }
          net := DropGroup(net, order[i]);
        }
      }
      err := None;
    }

    method DeleteLoadBalancers(order: seq<string>) returns (ok: bool)
      modifies this
      ensures (State(), ok) == DeleteAll(cfg, old(State()), order)
    {
      hide DeleteExternal, DeleteInternal, DeleteGroups;
      ok := true;
      var err: Option<Error>;
      if WantsExternal(cfg) {
        err := DeleteExternalLoadBalancer();
        ok := ok && err == None;
      }
      if WantsInternal(cfg) {
        err := DeleteInternalLoadBalancer();
        ok := ok && err == None;
      }
      err := DeleteInstanceGroups(order);
      ok := ok && err == None;
    }
  }
}
