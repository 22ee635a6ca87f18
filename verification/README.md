# Cluster API Provider GCP: a verified model of its reconcilers

The provider turns Kubernetes objects into Google Cloud resources. Its controllers run in rounds: read the object and
the cloud, make the calls that bring the cloud closer to the spec, write status back. Any call can fail, also after it
took effect, and the next round starts from whatever was left behind. This project models the most involved of those
reconcilers as functions from state to state over a fault-prone store, proves the source's imperative form equal to
them, and proves theorems about every run.

How the model is set up:

- One oracle decides every call: it works, fails with no effect, or takes effect and still fails. In the load balancer
  and GCPCluster modules it is a sequence of outcomes consumed call by call, and a log records the cloud after each call.
- A self link is an injective function of a resource's key, so a link is the key. Hashes are functions given as
  parameters. Conditions are a map from type to status and reason. `None` is Go's nil; nil and empty collections stay
  distinct wherever the source tells them apart.
- Functions specify; classes and methods carry the source's form (fields updated in place, early returns, loops) and are
  proved equal to the functions, so that the run theorems hold of them.
- What a function computes is stated once more without it: `LoadBalancerContents`, `NodePoolWishes`, `ControlPlaneWishes`
  and `MachinePoolContents` read off the spec, name by name and value by value, what the cloud holds in the end.

| modules | part of the provider |
|---|---|
| `CloudApi`, `LoadBalancer*` | the API server load balancers: two resource chains over shared instance groups |
| `GCPCluster*` | the cluster controller around them: finalizer, the services in their order, and histories of rounds and admitted edits |
| `Networks`, `NetworkRounds`, `NetworkServices` | networks and routers of many clusters interleaving call by call; subnets |
| `FirewallRules`, `Firewalls` | how firewall rules get names and contents, and runs of several clusters over one store of them |
| `NodePool*`, `ControlPlane*`, `Conditions` | GKE node pools and control planes: status machines and update loops |
| `MachinePool*` | hash-named instance templates and the group manager, alone and beside other pools |
| `Text`, `ProviderIds`, `Locations`, `ManagedAdmission` | codecs, replica arithmetic, admission histories |

What the proofs show about the source, where it does less than a reader might expect:

- A first load balancer round that fails after creating an instance group loses its record; if the zone is gone by the
  next round the group leaks (`LostGroup`). Delete restores the cloud exactly when no group is unrecorded
  (`DeleteRestoresIff`).
- Backends are compared by number; this is enough as long as zones are only added (`BackendsMatchZones`). In general a
  nil Reconcile leaves the right groups exactly when the service did not hold as many wrong ones before
  (`BackendsRightIff`); a move from one zone to another leaves it stale, and no later round repairs it while the number
  of zones stays the same (`StaleBackends`, `StaleForEver`).
- Edits of ports and network name never reach a balancer that is settled (`Quiescence`).
- Draining the instance group map takes two Delete calls (`DrainTakesTwo`).
- Present but empty labels make every load balancer round send one label request per forwarding rule (`Quiescence`).
- Subnet deletion stops at the first foreign subnet and still reports success, so that owned subnets after it survive
  (`LeftoversIff`, `OwnedSubnetSurvives`).
- A node pool's update loop comes to rest exactly when no wanted collection is present but empty, the version can be
  stored, and there are locations to divide by (`Converges`, `NeverRests`).
- Every node pool created without a linux configuration is sent one update, and every one created without scaling an
  autoscaling request for zero to one nodes, right after its creation (`NodePoolWishes.CreationLacksIff`).
- A cluster created with a private endpoint has its authorized networks overwritten by the first update, which turns the
  feature off where the spec lists none (`ControlPlaneWishes.CreationLacksIff`).
- A monitoring difference of a control plane is sent as the logging service: the update is required for ever and the
  logging service receives the monitoring value (`ConvergesIff`, `MonitoringOverwritesLogging`).
- Deleting a control plane whose cluster is still provisioning or reconciling reads a condition that may never have been
  set (`DeletePanicsIff`, `EarlyDeletePanics`).
- A delete that meets a stale Deleted reason gives up the finalizer of an existing cluster (`StaleReasonDropsFinalizer`).
- A template of the right name that carries no hash, or a forged one, passes the collision check
  (`RoundPutsPoolInPlaceIff`, `WrongTemplateInUse`, `ForgedTemplateInUse`).
- Deleting a machine pool deletes the templates of the whole cluster, and so fails for as long as another pool's manager
  holds one (`PoolDeleteSucceedsIff`, `SiblingBlocksDelete`). One user label on a pool of another cluster has the same
  effect (`ClaimBlocksDelete`).
- Pools of clusters "a" and "a-b" can share an instance group manager, and then take it from each other
  (`MachinePoolNeighbours.ClustersMeetIff`, `MeetingPoolsClash`).
- Firewall rule names are tested for the cluster's name without the dash, so clusters whose names begin alike can want,
  and delete, one another's rules (`FirewallRules.ClustersMeetIff`, `MeetingClustersClash`); of two rules that come to
  one name only the first is ever made (`InForceIff`); and a rule taken out of the spec stays (`DeleteInvertsIff`).
- A control plane created with an unknown logging or monitoring service admits no update that keeps it
  (`CreatedCanStayIff`).
- Admitted control planes can have both version fields set, if Version was unset before (`BothVersionsAdmittedIff`);
  admitted scaling bounds can be out of order once defaults are filled in (`ConvertedBoundsIff`).
- An instance shares its provider ID with another exactly when its URL parts hold dots to resolve (`TextInjectiveIff`).
- A router that stands without its network survives a nil Delete that finds it so (`DeleteLeavesNothing`,
  `StrandedRouterStays`).

## Model

| member | source | states |
|---|---|---|
| LoadBalancerRuns.DeleteInvertsReconcile | cloud/services/compute/loadbalancers/reconcile.go:50-168 | from a cloud without this cluster's keys, after any faulty run with edits between its rounds whose last Reconcile returned nil and covered all zones used, any Delete rounds ending in nil leave exactly the starting cloud |
| LoadBalancerRuns.DeleteRestoresIff | cloud/services/compute/loadbalancers/reconcile.go:777-794 | after any run, a nil Delete restores the starting cloud if and only if every instance group in the cloud was recorded in the status map before it |
| LoadBalancerRuns.EveryCallKeepsIntegrity | cloud/services/compute/loadbalancers/reconcile.go:112-253 | after every single call of every faulty run, with edits of the spec between rounds, each reference of each resource resolves, and nothing outside the cluster's own keys has changed |
| LoadBalancerRuns.EveryCallKeepsModes | cloud/services/compute/loadbalancers/reconcile.go:350-413 | after every call of every run, backends naming the same instance group use the same balancing mode |
| LoadBalancerRuns.HostIsTheAddress | cloud/services/compute/loadbalancers/reconcile.go:171-253 | whenever a run ends in a Reconcile that returned nil, whatever zones came and went, the control plane host is the global address if the type is unset, External or InternalExternal, and the regional one if it is Internal |
| LoadBalancerContents.TypeDecides | cloud/services/compute/loadbalancers/reconcile.go:58-79 | whenever a run ends in a Reconcile that returned nil, an unset type, External or InternalExternal has all five global resources under the name of the cluster followed by -apiserver and the host at that address; Internal or InternalExternal has the four regional ones; a chain not asked for is as it was at the start |
| LoadBalancerContents.DeleteClearsByType | cloud/services/compute/loadbalancers/reconcile.go:84-110 | after any run a nil Delete leaves none of the resources of the chains that the type asks for, by the same names |
| LoadBalancerContents.WantedByType | cloud/services/compute/loadbalancers/reconcile.go:58-93 | which keys the service uses, spelled out for an unset type and for each type |
| LoadBalancerContents.RunIsAskedFor | cloud/scope/cluster.go:308-381 | after every faulty run with edits in between, each resource of the balancer is what the configuration of some round asked for: group name and port, serving ports, network, chosen subnet, fixed address, balancing mode and connection limit |
| LoadBalancerContents.ReconcileAdds | cloud/services/compute/loadbalancers/reconcile.go:171-253 | what one Reconcile adds is what its configuration asks for, and what was there is kept up to labels and backends, whatever fails |
| LoadBalancerRuns.BackendsMatchZones | cloud/services/compute/loadbalancers/reconcile.go:350-456 | if zones are only added along a run, after a successful Reconcile each backend service's groups are exactly the groups of the current zones |
| LoadBalancerBackends.BackendsRightIff | cloud/services/compute/loadbalancers/reconcile.go:350-456 | after any faulty run, a nil Reconcile leaves a backend service with exactly the groups of its zones if and only if, before that round, it did not hold as many wrong groups as there are zones |
| LoadBalancerBackends.StaleBackends | cloud/services/compute/loadbalancers/reconcile.go:387-399 | for every configuration, a fault-free run over zone a and then zone b in which both rounds return nil and the backend service still names only the group of a |
| LoadBalancerBackends.NeverRepaired | cloud/services/compute/loadbalancers/reconcile.go:387-399 | after any run, no sequence of Reconcile rounds over as many zones as a backend service has backends ever changes that service, whatever fails and whatever is edited |
| LoadBalancerBackends.StaleForEver | cloud/services/compute/loadbalancers/reconcile.go:387-399 | after such a move from zone a to zone b, no run of rounds over single zones brings the group of b in |
| LoadBalancerRuns.SomeRoundReturns | cloud/services/compute/loadbalancers/reconcile.go:50-81 | with k failing calls in total (and a subnet present if wanted), one of any k + 1 rounds returns nil, be they Reconcile or Delete rounds |
| LoadBalancerRuns.Quiescence | cloud/services/compute/loadbalancers/reconcile.go:295-660 | whenever a run ends in a Reconcile that returned nil and no faults are left, a further round with the same labels, subnets and zones changes no cloud, status or host, whatever else was edited, and sends no mutating request except one label request per rule if labels are present but empty |
| LoadBalancerRuns.LostGroup | cloud/services/compute/loadbalancers/reconcile.go:255-293 | for every configuration, a run in which a failed first round loses the record of a group, which then survives a nil Reconcile over another zone and a nil Delete |
| LoadBalancerRuns.DrainTakesTwo | cloud/services/compute/loadbalancers/reconcile.go:777-794 | after any run a nil Delete keeps the map entries of exactly the groups that existed before it, and the next nil Delete empties the map |
| LoadBalancerRuns.RoundKeeps | cloud/services/compute/loadbalancers/reconcile.go:50-110 | every round keeps the invariant on all intermediate clouds; a nil Reconcile leaves everything settled, and a failing round of either kind has used up a fault |
| LoadBalancerChains.ReconcileKeeps | cloud/services/compute/loadbalancers/reconcile.go:50-81 | Reconcile keeps the invariant at every call, settles both chains and the group map on success, and fails only by a fault or a missing subnet |
| LoadBalancerChains.CreateExternalKeeps | cloud/services/compute/loadbalancers/reconcile.go:171-216 | the external chain touches only global keys, records its five links and the host, and fails only by a fault |
| LoadBalancerChains.CreateInternalKeeps | cloud/services/compute/loadbalancers/reconcile.go:219-253 | the internal chain touches only keys of its region and records its four links; the host changes only for an internal-only balancer |
| LoadBalancerSteps.CreateGroupsKeeps | cloud/services/compute/loadbalancers/reconcile.go:255-293 | the zone loop keeps the invariant, and on success every zone has its group in the cloud and in the map |
| LoadBalancerSteps.BackendServiceKeeps | cloud/services/compute/loadbalancers/reconcile.go:350-456 | creating or updating a backend service keeps the invariant and ends with as many backends as wanted |
| LoadBalancerSteps.RuleKeeps | cloud/services/compute/loadbalancers/reconcile.go:556-660 | creating a forwarding rule and setting its labels keeps the invariant and ends with the wanted labels |
| LoadBalancerSteps.SubnetKeeps | cloud/services/compute/loadbalancers/reconcile.go:797-823 | the subnet search settles on the first spec that fits, or fails by a fault or a missing subnet |
| LoadBalancerDelete.DeleteExternalKeeps | cloud/services/compute/loadbalancers/reconcile.go:112-142 | the external delete chain keeps references intact without the cloud's help, and on success no global key is left |
| LoadBalancerDelete.DeleteInternalKeeps | cloud/services/compute/loadbalancers/reconcile.go:144-168 | the same for the internal chain and its region |
| LoadBalancerDelete.DeleteAllKeeps | cloud/services/compute/loadbalancers/reconcile.go:84-110 | Delete only removes own resources, keeps references intact at every call, and on success no chain key and no listed group is left |
| LoadBalancerDelete.DeleteAllSpends | cloud/services/compute/loadbalancers/reconcile.go:84-110 | Delete fails only by a fault: once the chains are gone the cloud never refuses a group |
| LoadBalancerQuiescence.CalmReconcile | cloud/services/compute/loadbalancers/reconcile.go:50-81 | on a settled, fault-free world Reconcile reproduces the same cloud, status and host |
| LoadBalancerService.Service.CreateOrGetInstanceGroups | cloud/services/compute/loadbalancers/reconcile.go:255-293 | the loop with its shared or fresh map equals the specification, including what a failure leaves behind |
| LoadBalancerService.Service.CreateOrGetBackendService | cloud/services/compute/loadbalancers/reconcile.go:350-456 | equals the specification: create or get, then update by number of backends |
| LoadBalancerService.Service.CreateOrGetForwardingRule | cloud/services/compute/loadbalancers/reconcile.go:556-660 | equals the specification: create or get, then set differing labels |
| LoadBalancerService.Service.FindSubnet | cloud/services/compute/loadbalancers/reconcile.go:797-823 | the search loop equals the specification |
| LoadBalancerService.Service.CreateExternalLoadBalancer | cloud/services/compute/loadbalancers/reconcile.go:171-216 | the imperative chain equals the specification, with every status write before an early return |
| LoadBalancerService.Service.CreateInternalLoadBalancer | cloud/services/compute/loadbalancers/reconcile.go:219-253 | the imperative chain equals the specification |
| LoadBalancerService.Service.ReconcileLoadBalancers | cloud/services/compute/loadbalancers/reconcile.go:50-81 | the whole Reconcile equals the specification that TypeDecides and the run theorems are about, the default type included |
| LoadBalancerService.Service.DeleteInstanceGroups | cloud/services/compute/loadbalancers/reconcile.go:777-794 | the loop drops a map entry only on not-found, as specified |
| LoadBalancerService.Service.DeleteLoadBalancers | cloud/services/compute/loadbalancers/reconcile.go:84-110 | the whole Delete, which goes on after a failed chain, equals the specification that DeleteClearsByType and the run theorems are about |
| GCPClusterController.FinalizerGuardsLoadBalancer | controllers/gcpcluster_controller.go:155-252 | after every call of every history of faulty rounds and admitted edits, a chain resource of this cluster exists only while the finalizer is stored |
| GCPClusterHistories.HistoryKeepsIntegrity | controllers/gcpcluster_controller.go:155-252 | after every call of every history of a GCPCluster, faulty rounds, other services at work and admitted edits in between, each reference resolves and nothing outside the balancer and the subnets has changed |
| GCPClusterHistories.HistoryDeleteInverts | controllers/gcpcluster_controller.go:155-252 | after any such history whose last Normal round returned nil and covered all zones used, and any winding down with further edits, a Deletion round that returns nil leaves exactly the resources of the beginning, subnets aside |
| GCPClusterHistories.HistoryDeleteRestoresIff | controllers/gcpcluster_controller.go:230-252 | after any such history, a Deletion round that returns nil restores the resources of the beginning, subnets aside, if and only if every instance group was recorded before it |
| GCPClusterHistories.ReadyMeansBuilt | controllers/gcpcluster_controller.go:201-227 | along every such history a cluster becomes ready only by a round that left every chain resource in the cloud and the control plane host equal to the address |
| GCPClusterServices.ReadyHasChains | controllers/gcpcluster_controller.go:201-227 | along every such history a cluster becomes ready only by a round in which the network, firewall and subnet services succeeded and that left the chains of its load balancer type in place under its own name and region, with a host that is their address |
| GCPClusterServices.FinalizerNeedsEveryService | controllers/gcpcluster_controller.go:230-252 | along every history a stored finalizer goes only by a Deletion round in which the load balancers and every other service succeeded |
| GCPClusterServices.FinalizerGoesIff | controllers/gcpcluster_controller.go:230-252 | a round gives up a stored finalizer if and only if it deletes, the load balancers, subnets, firewalls and networks all succeed, and the closing write takes effect |
| GCPClusterServices.FaultlessRoundReturnsIff | controllers/gcpcluster_controller.go:163-252 | after any history, a round whose own calls meet no fault returns nil if and only if every other service succeeds and, for an internal balancer to be built, a subnet for its address is there |
| GCPClusterServices.ReturnedIsReady | controllers/gcpcluster_controller.go:216-227 | a Normal round that returns nil makes the cluster ready if and only if it has a host, and stores that host |
| GCPClusterServices.ReadyForEver | controllers/gcpcluster_controller.go:216-227 | along every history ready is never taken back |
| GCPClusterServices.LostWrites | controllers/gcpcluster_controller.go:147-152 | a closing write that is lost loses exactly what it carries; the round returns nil if and only if it succeeded and both writes did |
| GCPClusterServices.DeletionCalls | controllers/gcpcluster_controller.go:234-247 | a Deletion calls load balancers, subnets, firewalls and networks in this order, the log holding each one's calls, the first failure ends it, and it succeeds if and only if all four do |
| GCPClusterServices.NormalCalls | controllers/gcpcluster_controller.go:167-214 | a Normal round that succeeds stored the finalizer, looked up region and zones, then called networks, firewalls and subnets with success in this order, and the load balancers last |
| GCPClusterServices.FailingServiceFails | controllers/gcpcluster_controller.go:209-247 | a failing service fails the round of either kind, wherever it stands in the order |
| GCPClusterServices.NormalMakes | cloud/scope/cluster.go:308-381 | what a Normal round makes anew has the group name and port, network and serving ports that the stored spec and the owner want |
| GCPClusterController.HistoryGuarded | controllers/gcpcluster_controller.go:155-252 | the invariant behind it, with region and load balancer spec fixed along the history |
| GCPClusterController.NormalGuarded | controllers/gcpcluster_controller.go:163-228 | a reconcile writes the finalizer before the first resource can appear, whatever fails |
| GCPClusterController.DeletionGuarded | controllers/gcpcluster_controller.go:230-252 | a delete gives up the finalizer only once no chain resource is left |
| GCPClusterAdmission.ValidateUpdate | webhooks/gcpcluster_webhook.go:68-152 | the reported errors are exactly the violations, and there are none if and only if the update is admissible |
| GCPClusterAdmission.AdmittedIff | webhooks/gcpcluster_webhook.go:78-146 | an update is admissible if and only if no error applies to it: a changed fixed field, an MTU outside 1300 to 8896, or ports on a protocol that is neither TCP nor UDP |
| GCPClusterAdmission.FailureDomains | controllers/gcpcluster_controller.go:182-199 | the nested loops select exactly the zones named by the spec, or all of them if it names none |
| GCPClusterReconciler.Reconciler.ReconcileCluster | controllers/gcpcluster_controller.go:163-228 | finalizer first, then lookups, networks, firewalls, subnets and the load balancers, with early returns; ready is set exactly on success with a host |
| GCPClusterReconciler.Reconciler.DeleteCluster | controllers/gcpcluster_controller.go:230-252 | load balancers first, then subnets, firewalls and networks, stopping at the first error: equal to the specification that DeletionCalls and FinalizerGoesIff are about |
| GCPClusterReconciler.Reconciler.ReconcileRequest | controllers/gcpcluster_controller.go:105-161 | a whole round, skipped or not, with its two closing writes, equals the round the theorems are about, the ready flag included |
| GCPClusterReconciler.Reconciler.Update | webhooks/gcpcluster_webhook.go:68-152 | the stored spec changes only to an admitted one |
| Networks.NoInterference | cloud/services/compute/networks/reconcile.go:33-166 | in every interleaving of any number of clusters, every call touches only resources tagged for its own cluster, creates only such, and changes nothing in a shared VPC |
| Networks.OnlyTheOwnerDeletes | cloud/services/compute/networks/reconcile.go:55-100 | a network or router survives every stretch in which its own cluster makes no move; one tagged for no cluster survives for ever |
| Networks.DeleteLeavesNothing | cloud/services/compute/networks/reconcile.go:55-100 | a nil Delete outside a shared VPC leaves no network tagged for the cluster, and a tagged router if and only if it stood there without its network; no run strands a router that was not stranded at the start |
| Networks.CallKeeps | cloud/services/compute/networks/reconcile.go:33-166 | each call keeps what a cluster relies on between its calls, and a successful Reconcile records network and router |
| NetworkRounds.ReconcileDoes | cloud/services/compute/networks/reconcile.go:33-52 | an undisturbed Reconcile: when it succeeds, the exact store it leaves with the literal names and tags, and what it records |
| NetworkRounds.DeleteDoes | cloud/services/compute/networks/reconcile.go:55-100 | an undisturbed Delete always succeeds and removes exactly the tagged network and, with it, the tagged router; nothing in a shared VPC or where the network is not tagged |
| NetworkRounds.DeleteUndoesIff | cloud/services/compute/networks/reconcile.go:33-100 | Delete after Reconcile leaves the store as it was, less what was tagged for the cluster; exactly as it was if and only if neither its network was tagged there nor its router beside a missing network |
| NetworkRounds.RoutersMeetIff | cloud/scope/cluster.go:248-251 | two clusters share a router key if and only if they share region and network |
| NetworkServices.NetworkService.CreateOrGetNetwork | cloud/services/compute/networks/reconcile.go:102-132 | get, insert unless shared, get again: equal to the call-by-call machine |
| NetworkServices.NetworkService.CreateOrGetRouter | cloud/services/compute/networks/reconcile.go:134-166 | the same for the router |
| NetworkServices.NetworkService.ReconcileNetwork | cloud/services/compute/networks/reconcile.go:33-52 | the imperative Reconcile runs the machine to its end |
| NetworkServices.NetworkService.DeleteNetwork | cloud/services/compute/networks/reconcile.go:55-100 | the imperative Delete runs the machine to its end |
| NetworkServices.SubnetService.ReconcileSubnets | cloud/services/compute/subnets/reconcile.go:83-118 | existing subnets stay, new ones are wanted ones with their description, success means all exist, a shared VPC changes nothing, and without faults only a shared VPC that lacks one fails |
| NetworkServices.SubnetService.DeleteSubnets | cloud/services/compute/subnets/reconcile.go:45-80 | equals the specification; removes only wanted subnets that are not foreign; a nil result leaves a wanted one if and only if one blocked in the store before the call; a shared VPC changes nothing |
| NetworkServices.LeftoversIff | cloud/services/compute/subnets/reconcile.go:45-80 | a nil Delete leaves a wanted subnet behind if and only if, in the store before the call, some spec names a foreign subnet that no earlier spec names |
| NetworkServices.NilDeleteStopsAtFirstBlock | cloud/services/compute/subnets/reconcile.go:63-68 | a nil Delete removes exactly the wanted subnets before the first such spec |
| NetworkServices.OwnedSubnetSurvives | cloud/services/compute/subnets/reconcile.go:63-68 | a foreign first subnet and an owned second one: a fault-free Delete returns nil and keeps both |
| NetworkServices.DeletesOnlyOurs | cloud/services/compute/subnets/reconcile.go:45-80 | whatever fails, a subnet is deleted only if some spec names it, in its own region or else the cluster's, and it carries the cluster's tag or that spec's own description |
| NetworkServices.AllOursGo | cloud/services/compute/subnets/reconcile.go:45-80 | where every subnet that a spec names is the cluster's, a nil Delete leaves none of them |
| NetworkServices.FaultlessDelete | cloud/services/compute/subnets/reconcile.go:45-80 | where no call fails, Delete returns nil |
| Firewalls.FirewallService.ReconcileFirewalls | cloud/services/compute/firewalls/reconcile.go:29-52 | the loop equals the specification that EnsureDoes and InForceIff are about; a shared VPC changes nothing |
| Firewalls.FirewallService.DeleteFirewalls | cloud/services/compute/firewalls/reconcile.go:55-74 | the loop equals the specification that RemoveDoes and DeleteInvertsIff are about; a shared VPC changes nothing |
| Firewalls.EnsureDoes | cloud/services/compute/firewalls/reconcile.go:29-52 | whatever fails, existing rules stay as they are; success means every wanted name is there and no other is new; without faults there is success |
| Firewalls.RemoveDoes | cloud/services/compute/firewalls/reconcile.go:55-74 | whatever fails, only wanted names go; success means exactly those, whoever made them; without faults there is success |
| Firewalls.InForceIff | cloud/services/compute/firewalls/reconcile.go:36-48 | after a successful Reconcile a wanted rule is in force if and only if it stood there before, or nothing stood under its name and the first rule wanted under it is the same |
| Firewalls.DeleteInvertsIff | cloud/services/compute/firewalls/reconcile.go:29-74 | wanting one list of rules at first and another in the end, a nil Reconcile and a nil Delete leave the store as it was if and only if every rule made is still wanted and none wanted in the end was there at first |
| Firewalls.RunSpares | cloud/services/compute/firewalls/reconcile.go:29-74 | no run of any clusters, whatever fails, touches a rule whose name none of them wants outside a shared VPC |
| Firewalls.ClustersApart | cloud/scope/firewall.go:80-89 | clusters that cannot want one name never touch each other's rules, whatever rules their users write and whatever fails |
| Firewalls.MeetingClustersClash | cloud/services/compute/firewalls/reconcile.go:62-70 | whoever made a rule, a cluster that can want its name has rules whose Delete takes it away |
| FirewallRules.CreateFirewallRules | cloud/scope/firewall.go:14-112 | the loops build exactly the default rules, unless unmanaged, and one rule per user rule |
| FirewallRules.RulesSay | cloud/scope/firewall.go:17-109 | position by position what the rules are: ports, ranges and tags of the two default ones, and of each user rule direction, protocols in lower case, ports, priority, description and its default |
| FirewallRules.ClustersMeetIff | cloud/scope/firewall.go:80-89 | two clusters can want one rule name if and only if one's name begins with the other's, or begins a default name of the other that has at most 63 characters |
| FirewallRules.NamedByIff | cloud/scope/firewall.go:80-89 | the names that rules of a cluster can have are its two default ones and every fitting name that begins with the cluster's |
| FirewallRules.RulesMeetIff | cloud/scope/firewall.go:82-87 | two named rules of a cluster want one name if and only if they are named alike or one spells out the cluster, a dash and the other |
| FirewallRules.UnnamedMeetIff | cloud/scope/firewall.go:80-81 | two unnamed rules want one name if and only if they have one direction, letter case aside |
| FirewallRules.NamesFit | cloud/scope/firewall.go:88-89 | every name has at most 63 characters, and a shorter one loses at most a closing dash |
| NodePoolRounds.Converges | cloud/services/container/nodepools/reconcile.go:136-193 | from a pool that can settle, at most one request per round and three in all take effect (four if the pool had no configuration and tags are wanted); then every clean round sends none, reports ready and up to date, and leaves a pool as wished in every compared field: version, labels, taints, image, tags, locations, linux configuration, autoscaling, and the size that the replicas come to per zone |
| NodePoolRounds.NeverRests | cloud/services/container/nodepools/reconcile.go:348-454 | for every other pool no clean round of any run comes to rest: each sends a request or divides by zero |
| NodePoolWishes.RestIffAsWished | cloud/services/container/nodepools/reconcile.go:348-454 | nothing is sent if and only if every compared field is as the spec wishes it, read off the spec without the conversions; with autoscaling off the node count times the zones is what the replicas allow |
| NodePoolWishes.RequestIff | cloud/services/container/nodepools/reconcile.go:348-414 | a configuration request names exactly the fields that are not as wished, each with the wished value |
| NodePoolWishes.NextIs | cloud/services/container/nodepools/reconcile.go:136-184 | configuration first, then scaling, then size, each only once the one before is right, and with the wished value; the division by zero exactly where the pool has no locations |
| NodePoolWishes.CreationLacksIff | cloud/scope/managedmachinepool.go:170-277 | a new pool gets a configuration update if and only if no linux configuration is wished, a wished collection is empty or the version cannot be stored, and an autoscaling request if and only if no scaling is wished |
| NodePoolWishes.SizeIff | cloud/services/container/nodepools/reconcile.go:431-454 | the size check passes if and only if autoscaling is on, or the node count is the replicas, divided over the pool's locations where the cluster's location has a dash |
| NodePoolWishes.ScalingIff | exp/api/v1beta1/types.go:83-111 | the converted scaling, spelled out: bounds 0 and 1 by default, balanced by default, all zero when off |
| NodePoolWishes.VersionForms | exp/api/v1beta1/types.go:114-117 | a leading v and everything from the first dash on are left aside |
| NodePoolRounds.ConditionsByStatus | cloud/services/container/nodepools/reconcile.go:108-134 | the status in the cloud decides the conditions, the result, the provider IDs and the replica count |
| NodePoolRounds.ReconcileTouches | cloud/services/container/nodepools/reconcile.go:59-194 | a pool appears if and only if there was none, the owner names it and its replicas divide over the zones; an existing one changes only by the one request of a running pool that is not as wished |
| NodePoolRounds.CreationShows | cloud/services/container/nodepools/reconcile.go:71-85 | a round that finds no pool reports not ready, and a pool being created if and only if the checks pass and the request succeeds |
| NodePoolRounds.FailedReadsShow | cloud/services/container/nodepools/reconcile.go:59-106 | a round that cannot read the pool or its instances marks it not ready, changes nothing in the cloud and does not end well |
| NodePoolRounds.DeleteTouches | cloud/services/container/nodepools/reconcile.go:197-239 | a delete asks for deletion if and only if the pool is neither busy nor stopping, and changes nothing but its status |
| NodePoolRounds.RefusalIsRetried | exp/controllers/gcpmanagedmachinepool_controller.go:296-369 | a failing describe or request is retried without an error if and only if its code is failed-precondition |
| NodePoolRounds.FinalizerGuardsPool | exp/controllers/gcpmanagedmachinepool_controller.go:296-369 | along every run that starts guarded, whatever fails, a pool exists only while the finalizer is there |
| NodePoolRounds.ReadyAfterEveryRound | cloud/services/container/nodepools/reconcile.go:48-239 | after every round of every run Status.Ready is true exactly when the Ready or the Updating condition is |
| NodePoolRounds.FinalizerGoesIff | exp/controllers/gcpmanagedmachinepool_controller.go:335-369 | the finalizer goes in exactly the delete calls whose own describe found no pool, and the Deleting condition is always there to read |
| NodePoolConvergence.MutationDescends | cloud/services/container/nodepools/reconcile.go:136-184 | each effective request lowers the rank config, autoscaling, size; rank zero means nothing to send |
| NodePoolConvergence.UnsteadyGoesOn | cloud/services/container/nodepools/reconcile.go:348-454 | a pool that cannot settle always has something to send or divides by zero, and stays so |
| NodePoolConvergence.UpdateSettlesIff | cloud/services/container/nodepools/reconcile.go:348-414 | a stored config update leaves no difference if and only if no wanted collection is empty and the version can be stored |
| NodePoolConvergence.AfterUpdate | cloud/services/container/nodepools/reconcile.go:348-414 | field by field, what still differs after the update is stored |
| NodePoolConvergence.ConversionIdempotentIff | exp/api/v1beta1/types.go:114-117 | converting a version twice changes nothing if and only if its part before the first dash holds at most one 'v' |
| NodePoolConvergence.NoResizeAfterCreation | cloud/services/container/nodepools/reconcile.go:431-454 | with autoscaling off and the zones that creation counted on, no size update follows creation |
| NodePoolService.BuildTaints | exp/api/v1beta1/types.go:56-69 | the loop converts each taint and keeps nil apart from empty |
| NodePoolService.BuildLinuxNodeConfig | exp/api/v1beta1/types.go:131-146 | the loop builds the sysctl map, later entries winning |
| NodePoolService.BuildAutoscaling | exp/api/v1beta1/types.go:83-111 | defaults, overrides, and everything dropped when disabled |
| NodePoolService.Service.CheckDiffAndPrepareUpdateConfig | cloud/services/container/nodepools/reconcile.go:348-414 | flag and request are exactly the fields that differ |
| NodePoolService.Service.CollectProviderIds | cloud/services/container/nodepools/reconcile.go:92-106 | the list holds each URL's provider ID at its position, and fails if and only if some URL does not parse |
| NodePoolService.Service.CreateNodePool | cloud/services/container/nodepools/reconcile.go:71-85 | preflight, creation, and the three conditions either way |
| NodePoolService.Service.ReconcileRunning | cloud/services/container/nodepools/reconcile.go:136-193 | the branch for a running pool equals the specification that RestIffAsWished, NextIs and Converges are about |
| NodePoolService.Service.ReconcilePool | cloud/services/container/nodepools/reconcile.go:59-194 | the whole Reconcile equals the specification, and Ready matches the conditions on every exit |
| NodePoolService.Service.DeletePool | cloud/services/container/nodepools/reconcile.go:197-239 | the whole Delete equals the specification, and Ready matches the conditions on every exit |
| NodePoolService.Service.ReconcileDeletePool | exp/controllers/gcpmanagedmachinepool_controller.go:335-369 | the controller's delete drops the finalizer in exactly the calls that found no pool, and requeues a failed precondition |
| NodePoolService.Service.ReconcileNormalPool | exp/controllers/gcpmanagedmachinepool_controller.go:296-333 | the controller's reconcile sets the finalizer, runs the service, and requeues a failed precondition without an error |
| ControlPlaneRounds.ConvergesIff | cloud/services/container/clusters/reconcile.go:143-181 | after one clean round every clean round is at rest, sends nothing and leaves a cluster as wished in channel, version, logging, monitoring and authorized networks, if and only if monitoring is unset or right and version and logging can be stored; then at most one update takes effect, otherwise every clean round sends one |
| ControlPlaneWishes.NeedsUpdateIff | cloud/services/container/clusters/reconcile.go:477-579 | an update is prepared if and only if the cluster is not as wished, read off the spec: the named channel, the version from Version before ControlPlaneVersion, both services, and exactly the listed authorized networks, or the feature off where none are listed |
| ControlPlaneWishes.RequestIff | cloud/services/container/clusters/reconcile.go:477-551 | the request names exactly the fields that are not as wished, each with the wished value, except that monitoring is named in the logging field |
| ControlPlaneWishes.CreationLacksIff | cloud/services/container/clusters/reconcile.go:262-334 | a new cluster is as wished if and only if no private endpoint overrides the authorized networks, an autopilot cluster wishes for no service, and the version reads back |
| ControlPlaneRounds.ShowsStatus | cloud/services/container/clusters/reconcile.go:101-181 | the status in the cloud decides ready flag, conditions and result, and an update is sent if and only if the cluster runs and is not as wished |
| ControlPlaneRounds.CreatesIff | cloud/services/container/clusters/reconcile.go:54-97 | a cluster appears if and only if none was found, the node pools could be listed and pass their checks, an autopilot cluster has none of them and another at least one, and the request takes effect; nothing reports ready until it is described again |
| ControlPlaneRounds.DeleteTouches | cloud/services/container/clusters/reconcile.go:184-226 | a delete asks for deletion if and only if the cluster is neither busy nor stopping, and changes nothing but its status |
| ControlPlaneRounds.FinalizerGuardsCluster | exp/controllers/gcpmanagedcontrolplane_controller.go:154-215 | along every run in which deletion once asked for stays asked for, whatever fails, a cluster exists only while the finalizer is there |
| ControlPlaneRounds.WaitsForCluster | exp/controllers/gcpmanagedcontrolplane_controller.go:154-166 | until the managed cluster is ready a reconcile sets the finalizer, asks to be repeated and does nothing else |
| ControlPlaneRounds.ReadyIsInitialized | cloud/services/container/clusters/reconcile.go:43-226 | along every run of Reconcile and Delete, Status.Ready equals Status.Initialized, and a Deleting condition once set stays readable |
| ControlPlaneRounds.DeletePanicsIff | exp/controllers/gcpmanagedcontrolplane_controller.go:188-215 | the delete reads an unset condition if and only if the cluster is provisioning or reconciling and no earlier call set it |
| ControlPlaneRounds.FinalizerGoesIff | exp/controllers/gcpmanagedcontrolplane_controller.go:188-215 | the finalizer goes if and only if describe found nothing, or a busy cluster meets a stale Deleted reason |
| ControlPlaneRounds.EarlyDeletePanics | cloud/services/container/clusters/reconcile.go:198-204 | deleting an object right after its cluster was created panics |
| ControlPlaneRounds.StaleReasonDropsFinalizer | exp/controllers/gcpmanagedcontrolplane_controller.go:209-212 | a lost finalizer write and a cluster created again by someone else: the next delete drops the finalizer while the cluster exists |
| ControlPlaneRounds.Service.Reconcile | cloud/services/container/clusters/reconcile.go:43-181 | the imperative Reconcile equals the specification |
| ControlPlaneRounds.Service.CreateCluster | cloud/services/container/clusters/reconcile.go:54-97 | node pool checks, preflight, creation and tag binding with their conditions |
| ControlPlaneRounds.Service.Delete | cloud/services/container/clusters/reconcile.go:184-226 | the imperative Delete equals the specification |
| ControlPlaneRounds.Service.ReconcileDelete | exp/controllers/gcpmanagedcontrolplane_controller.go:188-215 | the controller's delete equals the specification and panics exactly in the stated case |
| ControlPlaneSpec.UpdateSettlesIff | cloud/services/container/clusters/reconcile.go:477-551 | one stored update leaves no difference if and only if the spec settles, and storing it never changes whether it does |
| ControlPlaneSpec.SameNetworksIff | cloud/services/container/clusters/reconcile.go:554-579 | the network comparison is equality up to nil versus empty block lists |
| ControlPlaneSpec.BuildNetworks | cloud/services/container/clusters/reconcile.go:435-459 | the loop copies every block; an absent configuration asks for the feature to be off |
| ControlPlaneSpec.CheckDiffAndPrepareUpdate | cloud/services/container/clusters/reconcile.go:477-551 | flag and update equal the specification that NeedsUpdateIff and RequestIff are about |
| MachinePoolRuns.RoundPutsPoolInPlaceIff | cloud/services/compute/instancegroupmanagers/instancegroupmanagers_reconcile.go:90-155 | after any run, a successful round leaves the manager pointing at a labelled template equal to the desired one, sized to the replicas (one by default), if and only if no other template stood under that name before the round |
| MachinePoolRuns.HonestRoundPutsPoolInPlaceIff | cloud/services/compute/instancetemplates/instancetemplate_reconcile.go:161-164 | with a digest without collisions and truthful labels at the start, that template is one without a hash, and it was there unchanged before the run |
| MachinePoolRuns.ForgedTemplateInUse | cloud/services/compute/instancetemplates/instancetemplate_reconcile.go:161-164 | a template with the right hash label and another body passes the collision check: a fault-free round returns nil and binds the manager to it |
| MachinePoolRuns.WrongTemplateInUse | cloud/services/compute/instancetemplates/instancetemplate_reconcile.go:161-164 | a store in which a fault-free round returns nil and binds the manager to a template with other content |
| MachinePoolRuns.PoolDeleteSucceedsIff | exp/controllers/gcpmachinepool_controller.go:280-315 | deleting a pool succeeds only with one zone and no other manager holding a template owned by the cluster; without faults, exactly then |
| MachinePoolNeighbours.SiblingBlocksDelete | cloud/services/compute/instancetemplates/instancetemplate_reconcile.go:68-91 | while a pool of the cluster with another name is in place, no deletion of this pool succeeds, after any run of moves of pools other than that one, with or without faults |
| MachinePoolNeighbours.OthersLeaveInPlace | cloud/services/compute/instancegroupmanagers/instancegroupmanagers_reconcile.go:90-155 | a pool in place stays in place, with its manager and template, through every run of moves of pools of another name in its cluster or of other clusters under another joined name, whatever fails |
| MachinePoolNeighbours.OthersKeepManager | cloud/services/compute/instancegroupmanagers/instancegroupmanagers_reconcile.go:46-155 | no move of another pool makes, changes or deletes a pool's manager, whatever fails |
| MachinePoolNeighbours.SameClusterKeys | cloud/scope/machinepool.go:162-174 | two pools of one cluster share a manager if and only if they share name and zone |
| MachinePoolNeighbours.ClustersMeetIff | cloud/scope/machinepool.go:162-174 | pools of two clusters can share a manager if and only if one cluster's name begins with the other's and a dash |
| MachinePoolNeighbours.MeetingPoolsClash | cloud/services/compute/instancegroupmanagers/instancegroupmanagers_reconcile.go:90-155 | where two pools do share a manager, a successful round of one takes it from the other unless they want the same template and size |
| MachinePoolNeighbours.HolderBlocksDelete | cloud/services/compute/instancetemplates/instancetemplate_reconcile.go:68-91 | no deletion of a pool succeeds while any other pool is in place on a template that carries the tag of the cluster |
| MachinePoolContents.ClaimBlocksDelete | cloud/services/compute/instancetemplates/instancetemplate_reconcile.go:68-91 | one user label on a pool of another cluster is enough for that |
| MachinePoolContents.OwnedByIff | api/v1beta1/labels.go:34-38 | a pool's template counts as owned by its own cluster and exactly those that a user label names |
| MachinePoolContents.TemplateSays | cloud/scope/machinepool.go:251-276 | what the template carries: body, tag, role, hash, and the user's labels in lower case, the last of equal keys deciding |
| MachinePoolContents.TemplateNamed | cloud/scope/machinepool.go:229-248 | its name is the first 46 characters of the pool's name, a dash and the short hash of prefix and content |
| MachinePoolContents.ManagerSays | cloud/scope/machinepool.go:162-227 | a successful round's manager stands in the one zone under cluster, dash and name, points at the template and has the replicas or one; a new one is of that zone and names its instances after the pool |
| MachinePoolContents.RoundSucceedsIff | exp/controllers/gcpmachinepool_controller.go:183-244 | where no call fails, a round succeeds if and only if the properties can be built, no template with another hash stands under the name, and there is one zone that is a plain name |
| MachinePoolRuns.PoolDeleted | exp/controllers/gcpmachinepool_controller.go:280-315 | success leaves neither the manager nor an owned template; nothing else is ever removed or changed; and no template is removed or attempted before the manager is gone |
| MachinePoolRuns.StoreIsGenuine | cloud/services/compute/instancetemplates/instancetemplate_reconcile.go:106-167 | every template any run put into the store carries the hash of its own content and a name of at most 63 characters, whatever others left there |
| MachinePoolRuns.InsertedIsAuthenticIff | cloud/services/compute/instancetemplates/instancetemplate_reconcile.go:119-135 | what is inserted carries the hash of its own content if and only if no user label uses the hash key; it is owned in any case |
| MachinePoolRuns.TemplateRound | cloud/services/compute/instancetemplates/instancetemplate_reconcile.go:106-167 | a round keeps every template, adds at most the desired one, and on success finds it unless another stood in its place before |
| MachinePoolRuns.PoolRound | cloud/services/compute/instancegroupmanagers/instancegroupmanagers_reconcile.go:90-155 | the same for template and manager together, with no assumption on the store |
| MachinePoolRuns.ManagerRound | cloud/services/compute/instancegroupmanagers/instancegroupmanagers_reconcile.go:90-155 | success means one plain zone, the wanted template and the wanted size |
| MachinePoolRuns.DeleteOwned | cloud/services/compute/instancetemplates/instancetemplate_reconcile.go:53-104 | nil means no owned template is left; no other is ever touched; every owned one is attempted whatever fails |
| MachinePools.BuiltIsOwned | api/v1beta1/labels.go:34-38 | labels built from any user labels, with the hash merged in, are recognised as owned |
| MachinePools.Build | api/v1beta1/labels.go:155-167 | the loop lower-cases user labels, then sets tag and role over them |
| MachinePoolService.Service.CreateOrGetInstanceTemplate | cloud/services/compute/instancetemplates/instancetemplate_reconcile.go:106-167 | equals the specification: hash, name, get, insert, get, collision check |
| MachinePoolService.Service.DeleteOwnedTemplates | cloud/services/compute/instancetemplates/instancetemplate_reconcile.go:53-104 | the loop that collects errors and goes on equals the specification |
| MachinePoolService.Service.CreateOrGetManager | cloud/services/compute/instancegroupmanagers/instancegroupmanagers_reconcile.go:90-155 | create or get, resize, retarget: equal to the specification that ManagerSays, SameClusterKeys and OthersKeepManager are about |
| MachinePoolService.Service.DeleteGroupManager | cloud/services/compute/instancegroupmanagers/instancegroupmanagers_reconcile.go:46-88 | success means one zone and exactly the pool's manager gone; other managers are never changed, and templates are not touched |
| MachinePoolService.Service.Reconcile | exp/controllers/gcpmachinepool_controller.go:183-244 | template first, then the manager bound to it |
| MachinePoolService.Service.Delete | exp/controllers/gcpmachinepool_controller.go:280-315 | success leaves neither the manager nor any owned template, and templates change only once the manager is gone |
| ProviderIds.ParsersAgreeIff | exp/controllers/gcpmachinepool_controller.go:252-268 | on every instance URL with non-empty parts both parsers succeed, and give the same provider ID if and only if path cleaning has nothing to resolve |
| ProviderIds.BothAcceptIff | util/resourceurl/parse.go:60-75 | both parsers accept exactly the instance URLs with non-empty parts |
| ProviderIds.ResourceUrlIff | util/resourceurl/parse.go:29-75 | the one parser reads exactly the googleapis URLs of eight parts, whatever they name, and takes project, location and name from fixed places |
| ProviderIds.InstanceUrlIff | exp/controllers/gcpmachinepool_controller.go:252-268 | the other reads exactly the paths of zonal instances, with or without the host and version, into gce, project, zone and name |
| ProviderIds.FormsAgreeIff | cloud/providerid/providerid.go:87-89 | the cleaned and the plain string form agree if and only if no part is a dot and double dots only lead |
| ProviderIds.TextInjectiveIff | cloud/providerid/providerid.go:87-89 | an instance shares its provider ID with no other if and only if path cleaning has nothing to resolve in it |
| ProviderIds.DotDropped | cloud/providerid/providerid.go:87-89 | a dot part is resolved away, so two different instances share one ID |
| ProviderIds.ReadBackIff | cloud/scope/providerid.go:57-83 | reading a provider ID back gives "gce" and the name if and only if no newline stands before the last character; otherwise it is refused |
| ProviderIds.WellFormedIffMatches | cloud/scope/providerid.go:54-83 | the test at the first colon decides exactly the source's regular expression |
| ProviderIds.ProviderIdList | exp/controllers/gcpmachinepool_controller.go:252-270 | the array filled by index holds each URL's ID; a single bad URL fails the call |
| Locations.RegionIsRegional | util/location/location.go:36-50 | every parseable location, a zone included, yields a region that counts as regional |
| Locations.ParseRoundTripIff | util/location/location.go:36-50 | a location is read back unchanged if and only if it has at most three parts, and its region parses to itself |
| Locations.ReplicasConserved | cloud/services/shared/machinepool.go:31-72 | lists that pass preflight pair each pool with the owner that names it, and its initial node count times its zones, three by default, equals the owner's replicas |
| Locations.PreflightAll | cloud/services/shared/machinepool.go:52-67 | passes exactly if the lists match and every pair passes, and names the first refused pair |
| ManagedAdmission.HistoryKeeps | exp/webhooks/gcpmanagedcontrolplane_webhook.go:62-211 | along every admitted history name, project, location and mode are fixed, the name has 1 to 40 characters, autopilot was created with a channel and excludes both services, and each updated service is none or the GKE one |
| ManagedAdmission.BothVersionsAdmittedIff | exp/webhooks/gcpmanagedcontrolplane_webhook.go:185-188 | an update to an object with both version fields is admitted if and only if Version was unset and the update is admissible without the other |
| ManagedAdmission.DefaultedNameFits | exp/webhooks/gcpmanagedcontrolplane_webhook.go:218-233 | a defaulted cluster name has fewer than 40 characters and is never empty; defaulting twice changes nothing |
| ManagedAdmission.DefaultedNameIs | exp/webhooks/gcpmanagedcontrolplane_webhook.go:218-233 | a default name is namespace, dash and name with dots as dashes if that has fewer than 40 characters, and otherwise capg- and 27 base-36 characters |
| ManagedAdmission.DefaultsMeetIff | exp/webhooks/gcpmanagedcontrolplane_webhook.go:218-224 | two objects of a namespace default to one short cluster name if and only if their names differ in dots for dashes alone |
| ManagedAdmission.CreatedCanStayIff | exp/webhooks/gcpmanagedcontrolplane_webhook.go:89-206 | an object as created admits an update that changes nothing if and only if its services are valid, which creation does not check |
| ManagedAdmission.ChannelCanBeDropped | exp/webhooks/gcpmanagedcontrolplane_webhook.go:106-108 | supporting fact: an update can drop the channel that an autopilot cluster must be created with |
| ManagedAdmission.ValidateCreate | exp/webhooks/gcpmanagedcontrolplane_webhook.go:89-134 | each error exactly on its violation, none if and only if the object is admissible, and a warning exactly for a lone deprecated version |
| ManagedAdmission.ValidateUpdate | exp/webhooks/gcpmanagedcontrolplane_webhook.go:137-211 | the reported errors are exactly the respects in which the update is wrong, none if and only if it is admissible |
| ManagedAdmission.Base36Truncate | util/hash/base36.go:48-56 | one base-36 character per byte of the hash |
| ManagedAdmission.ValidateImmutable | util/webhook/validator.go:34-53 | the case analysis on zero values accepts exactly equal values, and tells setting and unsetting apart |
| ManagedAdmission.ValidateScaling | exp/webhooks/gcpmanagedmachinepool_webhook.go:77-109 | each error exactly on its violation, none if and only if the scaling is valid |
| ManagedAdmission.ConvertedBoundsIff | exp/api/v1beta1/types.go:83-111 | valid scaling converts to ordered bounds if and only if the unset bound's default leaves room |
| ManagedAdmission.ValidatePoolCreate | exp/webhooks/gcpmanagedmachinepool_webhook.go:112-169 | each error exactly on its violation, none if and only if the pool is admissible |
| ManagedAdmission.ValidatePoolUpdate | exp/webhooks/gcpmanagedmachinepool_webhook.go:172-287 | no error if and only if every immutable field is unchanged and the scaling is valid |
| ManagedAdmission.PoolHistoryKeeps | exp/webhooks/gcpmanagedmachinepool_webhook.go:172-287 | along every admitted history each immutable field stays as created, name and sizes stay in their bounds, and so do the bounds of the scaling |
| GCPClusterController.ReadyNeedsSuccess | controllers/gcpcluster_controller.go:201-227 | supporting fact: a cluster becomes ready only by a round in which every service returned nil and the control plane had a host |
| Networks.StrandedRouterStays | cloud/services/compute/networks/reconcile.go:67-76 | supporting fact: a router that stands without its network survives a fault-free Delete that returns nil |
| LoadBalancerRuns.BackendsUpdatedIff | cloud/services/compute/loadbalancers/reconcile.go:383-400 | supporting fact: backends end up right if and only if their number was wrong or they were right already |
| GCPClusterController.KeysAreFixed | cloud/scope/cluster.go:308-381 | supporting fact: equal region and load balancer spec give equal keys, so delete looks where create put things |
| GCPClusterController.WithoutImmutability | webhooks/gcpcluster_webhook.go:99-104 | supporting fact: if the load balancer spec could change, a fault-free delete would drop the finalizer and leave every chain resource |
| ControlPlaneSpec.MonitoringOverwritesLogging | cloud/services/container/clusters/reconcile.go:510-518 | supporting fact: the update for a monitoring difference puts the monitoring value into the logging service and leaves monitoring as it was |
| ManagedAdmission.BothVersionsOnlyOnce | exp/webhooks/gcpmanagedcontrolplane_webhook.go:119-127 | supporting fact: both version fields are set together only right after an object without Version, and never twice in a row |

## Left out

- Real API, gRPC and Kubernetes clients, rate limits, credentials, kubeconfig secrets, logging and events: replaced by the oracle.
- Manager setup, watches, predicates, feature gates and generated code: plumbing.
- Instance and template property builders (disks, shielded and confidential options): one-branch facts; a template's properties are one serialised text.
- The instances service: a weaker copy of the create-or-get chain.
- GCPManagedCluster's reconcilers: they run in map order, so convergence would need a fairness assumption the code does not supply.
- Fields of load balancer resources that nothing compares and that hold no reference (timeouts, protocols, health check details).
- Label fingerprints and the copy of label maps: AddLabels writes into the cluster's own map, which a value model does not show.
- Two controllers at work on one object at once, stale caches, and third parties that edit the same resources mid-run.
- An owner without a replica count: the GKE code dereferences it; the count is always present in the model.
- Integer width: counts and sizes are unbounded integers; the source uses 32-bit counts.
- Case folding beyond ASCII, and lengths counted in characters where the source counts bytes.
- GCPClusterController.FinalizerGuardsLoadBalancer: speaks of the chain resources, not of instance groups, because a lost group record lets a group outlive the finalizer.
- GCPClusterReconciler.Reconciler.ReconcileCluster: the network, firewall and subnet services are arbitrary effects there that spare the load balancer's kinds, because their own models in NetworkServices and Firewalls live in separate stores.
- GCPClusterHistories.HistoryKeepsIntegrity: assumes that the other services keep links intact, as a cloud does that refuses to delete a subnet in use; subnets themselves may come and go.
- GCPClusterReconciler.Reconciler.ReconcileRequest: why a round is skipped (object, owner or scope missing, object paused) is not told apart.
- MachinePoolService.Service.Reconcile: conditions and the list of instances that follow the manager are not modelled, except for the provider ID list.
- ControlPlaneRounds.Service.CreateCluster: the created cluster holds only what the comparison later reads.
- NodePoolService.Service.CreateNodePool: the created pool holds only what the comparisons later read.
- FirewallRules.ClustersMeetIff: speaks of cluster names of at most 63 characters that do not end in a dash; a longer one is cut like the rule.
- Networks.DeleteLeavesNothing: network name and region are fixed along the run; a spec that renames its network would look elsewhere.
