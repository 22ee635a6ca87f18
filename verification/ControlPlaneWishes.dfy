/**
  What a control plane at rest is like: every compared field as the spec wishes, read off the spec without the
  conversions and comparisons of the service; what a request carries, and what a new cluster still lacks.
 */
module ControlPlaneWishes {
  import opened CloudApi
  import opened Text
  import NodePoolSpec
  import NodePoolConvergence
  import opened ControlPlaneSpec

  ghost predicate ChannelWished(text: Option<string>, c: Option<Channel>) {
    && (c == Some(Rapid) <==> text == Some("rapid"))
    && (c == Some(Regular) <==> text == Some("regular"))
    && (c == Some(Stable) <==> text == Some("stable"))
    && (c == Some(Extended) <==> text == Some("extended"))
  }

  /** `version` goes before `controlPlaneVersion`; without either any version will do. */
  ghost predicate VersionWished(spec: PlaneSpec, current: string) {
    && (spec.version.Some? ==> NodePoolSpec.ConvertVersion(spec.version.value) == NodePoolSpec.ConvertVersion(current))
    && (spec.version.None? && spec.controlPlaneVersion.Some? ==>
          NodePoolSpec.ConvertVersion(spec.controlPlaneVersion.value) == NodePoolSpec.ConvertVersion(current))
  }

  /** The authorized networks are the listed blocks; without a list the feature is off and Google's ranges shut out. */
  ghost predicate NetworksWished(wish: Option<NetworksSpec>, networks: Option<Networks>) {
    && networks.Some?
    && (networks.value.enabled <==> wish.Some?)
    && networks.value.blocks.GetOr([]) == (if wish.Some? then wish.value.blocks else [])
    && networks.value.gcpPublic == (if wish.Some? then wish.value.gcpPublic else Some(false))
  }

  ghost predicate AsWished(spec: PlaneSpec, c: GkeCluster) {
    && ChannelWished(spec.channel, c.channel) && VersionWished(spec, c.masterVersion)
    && (spec.logging.Some? ==> c.logging == spec.logging.value)
    && (spec.monitoring.Some? ==> c.monitoring == spec.monitoring.value)
    && NetworksWished(spec.networks, NetworksOf(c))
  }

  lemma ChannelIff(spec: PlaneSpec, c: GkeCluster)
    ensures ChannelDiffers(spec, c) <==> !ChannelWished(spec.channel, c.channel)
  {
    assert "rapid" != "regular" && "rapid" != "stable" && "rapid" != "extended" && "regular" != "stable";
    assert "regular" != "extended" && "stable" != "extended";
  }

  lemma NetworksIff(spec: PlaneSpec, c: GkeCluster)
    ensures NetworksDiffer(spec, c) <==> !NetworksWished(spec.networks, NetworksOf(c))
  {
  }

  /** The comparison asks for an update exactly of a cluster that is not as wished. */
  lemma NeedsUpdateIff(spec: PlaneSpec, c: GkeCluster)
    ensures NeedsUpdate(spec, c) <==> !AsWished(spec, c)
  {
    hide ChannelDiffers, NetworksDiffer, ChannelWished, NetworksWished, NodePoolSpec.ConvertVersion;
    ChannelIff(spec, c);
    NetworksIff(spec, c);
  }

  /**
    A request names exactly the fields that are not as wished, each with the wished value; but monitoring is named
    in the logging field.
   */
  lemma RequestIff(spec: PlaneSpec, c: GkeCluster)
    ensures var u := UpdateFor(spec, c);
      && (u.channel.Some? <==> !ChannelWished(spec.channel, c.channel))
      && (u.channel.Some? ==> ChannelWished(spec.channel, u.channel))
      && (u.endpoints.Some? <==> !NetworksWished(spec.networks, NetworksOf(c)))
      && (u.endpoints.Some? ==> NetworksWished(spec.networks, NetworksOf(c.(endpoints := u.endpoints))))
      && (VersionWished(spec, c.masterVersion) ==> u.masterVersion == "")
      && (!VersionWished(spec, c.masterVersion) ==>
            var wished := if spec.version.Some? then spec.version.value else spec.controlPlaneVersion.value;
            u.masterVersion == NodePoolSpec.ConvertVersion(wished))
      && (u.monitoring == "")
      && (spec.monitoring.Some? && c.monitoring != spec.monitoring.value ==> u.logging == spec.monitoring.value)
      && (spec.monitoring.None? || c.monitoring == spec.monitoring.value ==>
            u.logging == if spec.logging.Some? && c.logging != spec.logging.value then spec.logging.value else "")
  {
    hide NodePoolSpec.ConvertVersion;
    ChannelIff(spec, c);
    NetworksIff(spec, c);
    if ChannelDiffers(spec, c) {
      ChannelIff(spec, c.(channel := Some(ConvertChannel(spec.channel))));
    }
    var networks := Some(Endpoints(Some(IpEndpoints(Some(ConvertNetworks(spec.networks))))));
    NetworksIff(spec, c.(endpoints := networks));
  }

  /**
    What a new cluster lacks, and so has to be sent right after it came up: the networks that a private endpoint
    overrode, the services that an autopilot cluster is created without, and a version that does not read back.
   */
  lemma CreationLacksIff(spec: PlaneSpec)
    ensures AsWished(spec, Created(spec)) <==>
      && (spec.privateEndpoint ==>
            spec.networks.Some? && spec.networks.value.blocks == [] && spec.networks.value.gcpPublic.None?)
      && (spec.autopilot ==> spec.logging.GetOr("") == "" && spec.monitoring.GetOr("") == "")
      && (spec.version.Some? ==> Count(Split(spec.version.value, '-')[0], 'v') <= 1)
      && (spec.version.None? && spec.controlPlaneVersion.Some? ==>
            Count(Split(spec.controlPlaneVersion.value, '-')[0], 'v') <= 1)
  {
    hide NodePoolSpec.ConvertVersion, Split, Count;
    var c := Created(spec);
    ChannelIff(spec, c);
    if WantedVersion(spec).Some? { NodePoolConvergence.ConversionIdempotentIff(WantedVersion(spec).value); }
  }
}
