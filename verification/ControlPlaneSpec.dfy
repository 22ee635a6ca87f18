/**
  GKE control planes (cloud/services/container/clusters/reconcile.go): the comparison that prepares
  an update, what the cloud makes of it, and when the two come to rest.
 */
module ControlPlaneSpec {
  import opened CloudApi
  import opened NodePoolSpec

  datatype Channel = Rapid | Regular | Stable | Extended | ChannelUnspecified

  function ConvertChannel(channel: Option<string>): Channel {
    if channel == Some("rapid") then Rapid
    else if channel == Some("regular") then Regular
    else if channel == Some("stable") then Stable
    else if channel == Some("extended") then Extended
    else ChannelUnspecified
  }

  datatype CidrBlock = CidrBlock(block: string, displayName: string)

  datatype NetworksSpec = NetworksSpec(blocks: seq<CidrBlock>, gcpPublic: Option<bool>)

  datatype Networks = Networks(enabled: bool, blocks: Option<seq<CidrBlock>>, gcpPublic: Option<bool>)

  /** An absent configuration asks for the feature to be disabled. */
  function ConvertNetworks(spec: Option<NetworksSpec>): Networks {
    if spec.None? then Networks(false, Some([]), Some(false))
    else Networks(true, Some(spec.value.blocks), spec.value.gcpPublic)
  }

  method BuildNetworks(spec: Option<NetworksSpec>) returns (r: Networks)
    ensures r == ConvertNetworks(spec)
  {
    if spec.None? {
      return Networks(false, Some([]), Some(false));
    }
    var blocks := new CidrBlock[|spec.value.blocks|](_ => CidrBlock("", ""));
    for i := 0 to |spec.value.blocks|
      invariant forall j :: 0 <= j < i ==> blocks[j] == spec.value.blocks[j]
    {
      var block := spec.value.blocks[i];
      blocks[i] := CidrBlock(block.block, block.displayName);
    }
    assert blocks[..] == spec.value.blocks;
    return Networks(true, Some(blocks[..]), spec.value.gcpPublic);
  }

  // ----- comparing networks -----

  function SameNetworks(a: Option<Networks>, b: Option<Networks>): bool {
    if a.None? && b.None? then true
    else if a.None? || b.None? then false
    else
      var x, y := a.value, b.value;
      if x.enabled != y.enabled then false
      else if (x.gcpPublic.None? && y.gcpPublic.Some?) || (x.gcpPublic.Some? && y.gcpPublic.None?) then false
      else if x.gcpPublic.Some? && y.gcpPublic.Some? && x.gcpPublic.value != y.gcpPublic.value then false
      else if (x.blocks.None? && y.blocks.Some? && |y.blocks.value| == 0)
           || (y.blocks.None? && x.blocks.Some? && |x.blocks.value| == 0) then true
      else x.blocks == y.blocks
  }

  /** Absent and empty block lists are one. */
  function Normal(a: Option<Networks>): Option<Networks> {
    if a.None? then None else Some(a.value.(blocks := WireSeq(a.value.blocks)))
  }

  /** The comparison is equality up to nil and empty block lists, hence an equivalence. */
  lemma SameNetworksIff(a: Option<Networks>, b: Option<Networks>)
    ensures SameNetworks(a, b) <==> Normal(a) == Normal(b)
  {
  }

  // ----- comparing clusters -----

  datatype ClusterStatus = Provisioning | Reconciling | Stopping | InError | Degraded | Running | OtherStatus

  datatype IpEndpoints = IpEndpoints(networks: Option<Networks>)

  datatype Endpoints = Endpoints(ip: Option<IpEndpoints>)

  datatype GkeCluster = GkeCluster(
    status: ClusterStatus, channel: Option<Channel>, masterVersion: string, logging: string, monitoring: string,
    endpoints: Option<Endpoints>, endpoint: string)

  datatype PlaneSpec = PlaneSpec(
    autopilot: bool, channel: Option<string>, version: Option<string>, controlPlaneVersion: Option<string>,
    logging: Option<string>, monitoring: Option<string>, networks: Option<NetworksSpec>, privateEndpoint: bool,
    location: string)

  function WantedVersion(spec: PlaneSpec): Option<string> {
    if spec.version.Some? then spec.version else spec.controlPlaneVersion
  }

  function NetworksOf(c: GkeCluster): Option<Networks> {
    if c.endpoints.Some? && c.endpoints.value.ip.Some? then c.endpoints.value.ip.value.networks else None
  }

  /** `monitoring` is a field of the request that the comparison never fills in. */
  datatype ClusterUpdate = ClusterUpdate(
    channel: Option<Channel>, masterVersion: string, logging: string, monitoring: string, endpoints: Option<Endpoints>)

  const NoUpdate := ClusterUpdate(None, "", "", "", None)

  predicate ChannelDiffers(spec: PlaneSpec, c: GkeCluster) {
    ConvertChannel(spec.channel) != c.channel.GetOr(ChannelUnspecified)
  }

  predicate VersionDiffers(spec: PlaneSpec, c: GkeCluster) {
    WantedVersion(spec).Some? && ConvertVersion(WantedVersion(spec).value) != ConvertVersion(c.masterVersion)
  }

  predicate LoggingDiffers(spec: PlaneSpec, c: GkeCluster) { spec.logging.Some? && spec.logging.value != c.logging }

  predicate MonitoringDiffers(spec: PlaneSpec, c: GkeCluster) {
    spec.monitoring.Some? && spec.monitoring.value != c.monitoring
  }

  predicate NetworksDiffer(spec: PlaneSpec, c: GkeCluster) {
    !SameNetworks(Some(ConvertNetworks(spec.networks)), NetworksOf(c))
  }

  predicate NeedsUpdate(spec: PlaneSpec, c: GkeCluster) {
    || ChannelDiffers(spec, c) || VersionDiffers(spec, c) || LoggingDiffers(spec, c) || MonitoringDiffers(spec, c)
    || NetworksDiffer(spec, c)
  }

  /** A monitoring difference is written into the logging field. */
  function UpdateFor(spec: PlaneSpec, c: GkeCluster): ClusterUpdate {
    ClusterUpdate(
      if ChannelDiffers(spec, c) then Some(ConvertChannel(spec.channel)) else None,
      if VersionDiffers(spec, c) then ConvertVersion(WantedVersion(spec).value) else "",
      if MonitoringDiffers(spec, c) then spec.monitoring.value
      else if LoggingDiffers(spec, c) then spec.logging.value else "",
      "",
      if NetworksDiffer(spec, c) then Some(Endpoints(Some(IpEndpoints(Some(ConvertNetworks(spec.networks))))))
      else None)
  }

  method CheckDiffAndPrepareUpdate(spec: PlaneSpec, existing: GkeCluster)
    returns (needUpdate: bool, update: ClusterUpdate)
    ensures needUpdate == NeedsUpdate(spec, existing) && update == UpdateFor(spec, existing)
  {
    needUpdate, update := false, NoUpdate;
    var channel := ConvertChannel(spec.channel);
    if channel != existing.channel.GetOr(ChannelUnspecified) {
      needUpdate, update := true, update.(channel := Some(channel));
    }
    var wanted := WantedVersion(spec);
    if wanted.Some? {
      var version := ConvertVersion(wanted.value);
      if version != ConvertVersion(existing.masterVersion) {
        needUpdate, update := true, update.(masterVersion := version);
      }
    }
    if spec.logging.Some? {
      if existing.logging != spec.logging.value {
        needUpdate, update := true, update.(logging := spec.logging.value);
      }
    }
    if spec.monitoring.Some? {
      if existing.monitoring != spec.monitoring.value {
        needUpdate, update := true, update.(logging := spec.monitoring.value);
      }
    }
    var networks := BuildNetworks(spec.networks);
    if !SameNetworks(Some(networks), NetworksOf(existing)) {
      needUpdate, update := true, update.(endpoints := Some(Endpoints(Some(IpEndpoints(Some(networks))))));
    }
  }

  /** A cloud that stores each field it is sent, an empty string meaning "unchanged". */
  function Apply(u: ClusterUpdate, c: GkeCluster): GkeCluster {
    c.(channel := if u.channel.Some? then u.channel else c.channel,
       masterVersion := if u.masterVersion != "" then u.masterVersion else c.masterVersion,
       logging := if u.logging != "" then u.logging else c.logging,
       monitoring := if u.monitoring != "" then u.monitoring else c.monitoring,
       endpoints := if u.endpoints.Some? then OnTheWire(u.endpoints) else c.endpoints)
  }

  function OnTheWire(e: Option<Endpoints>): Option<Endpoints> {
    if e.Some? && e.value.ip.Some? then Some(Endpoints(Some(IpEndpoints(Normal(e.value.ip.value.networks))))) else e
  }

  // ----- coming to rest -----

  /**
    What a caller can check beforehand: monitoring unset or right, and a version and logging value that can be
    stored.
   */
  ghost predicate Settles(spec: PlaneSpec, c: GkeCluster) {
    && !MonitoringDiffers(spec, c)
    && (LoggingDiffers(spec, c) ==> spec.logging.value != "")
    && (VersionDiffers(spec, c) ==>
          var v := ConvertVersion(WantedVersion(spec).value); v != "" && ConvertVersion(v) == v)
  }

  /** One stored update leaves no difference exactly when the spec settles, and it never changes whether it does. */
  lemma UpdateSettlesIff(spec: PlaneSpec, c: GkeCluster)
    ensures var c' := Apply(UpdateFor(spec, c), c);
      && (NeedsUpdate(spec, c') <==> !Settles(spec, c))
      && (Settles(spec, c) ==> Settles(spec, c'))
      && (!Settles(spec, c) ==> !Settles(spec, c') && NeedsUpdate(spec, c))
  {
    hide ConvertVersion, ConvertChannel;
    SameNetworksIff(Some(ConvertNetworks(spec.networks)), NetworksOf(Apply(UpdateFor(spec, c), c)));
  }

  /** The update that a monitoring difference prepares puts the monitoring value into the logging service. */
  lemma MonitoringOverwritesLogging(spec: PlaneSpec, c: GkeCluster)
    requires MonitoringDiffers(spec, c) && spec.monitoring.value != ""
    ensures var c' := Apply(UpdateFor(spec, c), c);
      && c'.logging == spec.monitoring.value && c'.monitoring == c.monitoring && MonitoringDiffers(spec, c')
  {
  }

  /** What creation stores; a private endpoint overrides the authorized networks. */
  function Created(spec: PlaneSpec): GkeCluster {
    var networks := if spec.privateEndpoint then Networks(true, None, None) else ConvertNetworks(spec.networks);
    GkeCluster(
      ClusterStatus.Provisioning, Some(ConvertChannel(spec.channel)),
      if WantedVersion(spec).Some? then ConvertVersion(WantedVersion(spec).value) else "",
      if spec.autopilot then "" else spec.logging.GetOr(""), if spec.autopilot then "" else spec.monitoring.GetOr(""),
      OnTheWire(Some(Endpoints(Some(IpEndpoints(Some(networks)))))), "")
  }
}
