/**
  The compute API as the reconcilers see it: one store of resources, and calls that may
  fail before or after they take effect.  A resource's self link is an injective function of
  its key, so a link is represented by the key itself.
 */
module CloudApi {

  datatype Option<+T> = None | Some(value: T) {
    function GetOr(default: T): T {
      if Some? then value else default
    }
  }

  type Labels = map<string, string>

  /** The tag that marks what belongs to a cluster: a description or a label key (api/v1beta1/labels.go). */
  function ClusterTagKey(cluster: string): string { "capg-cluster-" + cluster }

  datatype Kind =
    InstanceGroups | HealthChecks | BackendServices | TargetTcpProxies | Addresses | ForwardingRules | Subnetworks

  datatype Scope = Global | Regional(region: string) | Zonal(zone: string)

  datatype Key = Key(kind: Kind, scope: Scope, name: string)

  type Link = Key

  datatype BalancingMode = Utilization | Connection

  datatype Backend = Backend(mode: BalancingMode, group: Link, maxConnections: int)

  datatype Scheme = ExternalScheme | InternalScheme

  datatype Ports = PortRange(low: int, high: int) | PortList(ports: seq<int>)

  datatype Resource =
    | InstanceGroup(port: int)
    | HealthCheck(region: string)
    | BackendService(scheme: Scheme, portName: string, region: string, network: Option<string>,
                     backends: seq<Backend>, healthChecks: seq<Link>)
    | TargetTcpProxy(service: Link)
    | Address(scheme: Scheme, region: string, purpose: string, subnetwork: Option<Link>, ip: string)
    | ForwardingRule(scheme: Scheme, region: string, target: Option<Link>, backendService: Option<Link>,
                     address: Link, subnetwork: Option<Link>, ports: Ports, globalAccess: bool,
                     labels: Option<Labels>)
    | Subnetwork

  type Cloud = map<Key, Resource>

  function OptionSet<T>(o: Option<T>): (s: set<T>) {
    if o.Some? then {o.value} else {}
  }

  /** Every link a resource holds. */
  function References(r: Resource): set<Link> {
    match r
    case BackendService(_, _, _, _, backends, checks) =>
      (set b | b in backends :: b.group) + (set c | c in checks)
    case TargetTcpProxy(service) => {service}
    case Address(_, _, _, subnet, _) => OptionSet(subnet)
    case ForwardingRule(_, _, target, service, address, subnet, _, _, _) =>
      OptionSet(target) + OptionSet(service) + {address} + OptionSet(subnet)
    case _ => {}
  }

  /** Every link held by a stored resource leads to a stored resource. */
  ghost predicate Integrity(c: Cloud) {
    forall k, l :: k in c && l in References(c[k]) ==> l in c
  }

  predicate InUse(c: Cloud, l: Link) {
    exists k | k in c :: l in References(c[k])
  }

  /** The recorded part of the cluster's network status (api/v1beta1/types.go). */
  datatype ChainStatus = ChainStatus(
    healthCheck: Option<Link>, backendService: Option<Link>, targetProxy: Option<Link>,
    address: Option<Link>, forwardingRule: Option<Link>)

  datatype NetworkStatus = NetworkStatus(
    groups: Option<map<string, Link>>, external: ChainStatus, internal: ChainStatus)

  /** What a call does besides its own logic: work, fail with no effect, or take effect and still fail. */
  datatype Fault = Works | FailsBefore | FailsAfter

  /** One entry of the oracle: the fault, and the choices the cloud makes itself on an insert. */
  datatype Outcome = Outcome(fault: Fault, ip: string, keepsLabels: bool)

  datatype Request =
    | Get(key: Key) | Insert(key: Key) | Update(key: Key) | SetLabels(key: Key) | Delete(key: Key)
    | Lookup | Elsewhere | Patch
  {
    /** A lookup reads regions and zones; elsewhere is a call of another service; a patch writes the object. */
    predicate Mutates() { !Get? && !Lookup? && !Patch? }
  }

  /** A request, the cloud right after it, and whether the stored object then carries the finalizer. */
  datatype Event = Event(request: Request, cloud: Cloud, finalizer: bool)

  datatype World = World(
    cloud: Cloud, net: NetworkStatus, host: string, finalizer: bool, oracle: seq<Outcome>, log: seq<Event>)

  datatype Error = NotFound | AlreadyExists | ResourceInUse | Unavailable | NoSubnet

  datatype Step<+T> = Done(w: World, value: T) | Failed(w: World, error: Error) {
    predicate IsFailure() { Failed? }

    function PropagateFailure<U>(): Step<U>
      requires Failed?
    {
      Failed(w, error)
    }

    function Extract(): (World, T)
      requires Done?
    {
      (w, value)
    }
  }

  datatype Found = Found(link: Link, resource: Resource)

  function Next(w: World): Outcome {
    if w.oracle == [] then Outcome(Works, "", false) else w.oracle[0]
  }

  /** The number of failing calls still ahead. */
  function Faults(oracle: seq<Outcome>): nat {
    if oracle == [] then 0 else (if oracle[0].fault.Works? then 0 else 1) + Faults(oracle[1..])
  }

  /** Accounts for one call that leaves `c` behind. */
  function Called(w: World, request: Request, c: Cloud): World {
    w.(cloud := c,
       oracle := if w.oracle == [] then [] else w.oracle[1..],
       log := w.log + [Event(request, c, w.finalizer)])
  }

  function Mutation(w: World, request: Request, applied: Cloud): Step<()> {
    match Next(w).fault
    case Works => Done(Called(w, request, applied), ())
    case FailsBefore => Failed(Called(w, request, w.cloud), Unavailable)
    case FailsAfter => Failed(Called(w, request, applied), Unavailable)
  }

  function Refusal<T>(w: World, request: Request, error: Error): Step<T> {
    Failed(Called(w, request, w.cloud), if Next(w).fault.Works? then error else Unavailable)
  }

  function GetCall(w: World, k: Key): Step<Found> {
    if !Next(w).fault.Works? || k !in w.cloud then Refusal(w, Get(k), NotFound)
    else Done(Called(w, Get(k), w.cloud), Found(k, w.cloud[k]))
  }

  /** An empty label map and an absent one are stored alike. */
  function StoredLabels(labels: Option<Labels>): Option<Labels> {
    if labels == Some(map[]) then None else labels
  }

  /** What an insert stores: an address gets an IP unless it names one; a rule may lose its labels. */
  function Stored(r: Resource, o: Outcome): Resource {
    match r
    case Address(_, _, _, _, ip) => if ip == "" then r.(ip := o.ip) else r
    case ForwardingRule(_, _, _, _, _, _, _, _, labels) =>
      r.(labels := if o.keepsLabels then StoredLabels(labels) else None)
    case _ => r
  }

  function InsertCall(w: World, k: Key, r: Resource): Step<()> {
    if k in w.cloud then Refusal(w, Insert(k), AlreadyExists)
    else Mutation(w, Insert(k), w.cloud[k := Stored(r, Next(w))])
  }

  function UpdateCall(w: World, k: Key, r: Resource): Step<()> {
    if k !in w.cloud then Refusal(w, Update(k), NotFound)
    else Mutation(w, Update(k), w.cloud[k := r])
  }

  function WithLabels(r: Resource, labels: Option<Labels>): Resource {
    if r.ForwardingRule? then r.(labels := StoredLabels(labels)) else r
  }

  function SetLabelsCall(w: World, k: Key, labels: Option<Labels>): Step<()> {
    if k !in w.cloud then Refusal(w, SetLabels(k), NotFound)
    else Mutation(w, SetLabels(k), w.cloud[k := WithLabels(w.cloud[k], labels)])
  }

  /** The cloud refuses to delete an instance group that a resource still links to; nothing else is protected. */
  function DeleteCall(w: World, k: Key): Step<()> {
    if k !in w.cloud then Refusal(w, Delete(k), NotFound)
    else if k.kind.InstanceGroups? && InUse(w.cloud, k) then Refusal(w, Delete(k), ResourceInUse)
    else Mutation(w, Delete(k), w.cloud - {k})
  }

  /** Look up, and on not-found insert and look up again: the shape shared by every createOrGet. */
  function CreateOrGet(w: World, k: Key, spec: Resource): Step<Found> {
    match GetCall(w, k)
    case Done(w1, found) => Done(w1, found)
    case Failed(w1, error) =>
      if error != NotFound then Failed(w1, error)
      else
        var (w2, _) :- InsertCall(w1, k, spec);
        GetCall(w2, k)
  }

  /** Delete where not-found counts as success: the shape shared by the load balancer deletes. */
  function DeleteIfPresent(w: World, k: Key): Step<()> {
    match DeleteCall(w, k)
    case Done(w1, _) => Done(w1, ())
    case Failed(w1, error) => if error == NotFound then Done(w1, ()) else Failed(w1, error)
  }

  lemma FaultsStep(w: World, request: Request, c: Cloud)
    ensures Faults(w.oracle) == Faults(Called(w, request, c).oracle) + (if Next(w).fault.Works? then 0 else 1)
  {
  }
}
