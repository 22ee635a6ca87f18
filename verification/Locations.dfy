/** Locations and the replica arithmetic that rests on them. */
module Locations {
  import opened CloudApi
  import opened Text

  // ----- util/location/location.go -----

  datatype Location = Location(region: string, zone: Option<string>)

  function Parse(location: string): Option<Location> {
    var parts := Split(location, '-');
    if |parts| < 2 then None
    else Some(Location(Join(parts[..2], '-'), if |parts| == 3 then Some(parts[2]) else None))
  }

  /** The region of a location; a failing parse leaves it empty. */
  function RegionName(location: string): string {
    match Parse(location)
    case None => ""
    case Some(l) => l.region
  }

  // ----- cloud/services/shared/machinepool.go -----

  predicate IsRegional(location: string) { Count(location, '-') == 1 }

  lemma RegionOf(location: string)
    requires Parse(location).Some?
    ensures Split(Parse(location).value.region, '-') == Split(location, '-')[..2]
  {
    var parts := Split(location, '-');
    SplitParts(location, '-');
    assert forall p :: p in parts[..2] ==> p in parts;
    SplitJoin(parts[..2], '-');
  }

  /** Every parseable location, a zone included, yields a region that counts as regional. */
  lemma RegionIsRegional(location: string)
    ensures Parse(location).Some? ==> IsRegional(Parse(location).value.region)
    ensures Parse(location).None? <==> Count(location, '-') == 0
  {
    SplitParts(location, '-');
    if Parse(location).Some? {
      RegionOf(location);
      SplitParts(Parse(location).value.region, '-');
    }
  }

  function Written(l: Location): string { if l.zone.Some? then l.region + "-" + l.zone.value else l.region }

  /** The text of a location is read back exactly when it has at most three parts. */
  lemma ParseRoundTripIff(location: string)
    requires Parse(location).Some?
    ensures Written(Parse(location).value) == location <==> Count(location, '-') <= 2
    ensures Parse(Parse(location).value.region) == Some(Location(Parse(location).value.region, None))
  {
    var parts := Split(location, '-');
    SplitParts(location, '-');
    RegionOf(location);
    var region := Parse(location).value.region;
    SplitParts(region, '-');
    assert parts[..2][..2] == parts[..2];
    assert parts[..2] == [parts[0], parts[1]];
    assert [parts[0], parts[1]][1..] == [parts[1]];
    assert region == parts[0] + "-" + parts[1];
    if |parts| == 2 {
      assert parts == parts[..2];
    } else if |parts| == 3 {
      assert parts[1..] == [parts[1], parts[2]] && parts[1..][1..] == [parts[2]];
      assert Join(parts, '-') == parts[0] + ['-'] + Join(parts[1..], '-');
      assert Join(parts[1..], '-') == parts[1] + ['-'] + parts[2];
      assert region + "-" + parts[2] == parts[0] + ['-'] + (parts[1] + ['-'] + parts[2]);
    } else {
      assert Split(Written(Parse(location).value), '-') == parts[..2];
    }
  }

  // ----- replicas -----

  const DefaultZones: int := 3

  /** Go's division and remainder on signed integers. */
  function Quotient(a: int, b: int): int
    requires b > 0
  {
    if a >= 0 then a / b else -((-a) / b)
  }

  function Remainder(a: int, b: int): int
    requires b > 0
  {
    a - Quotient(a, b) * b
  }

  /** What decides the size of a pool: the managed pool's name and zones, the owner's reference and replicas. */
  datatype ManagedPool = ManagedPool(name: string, locations: seq<string>)

  datatype MachinePool = MachinePool(refName: string, replicas: int)

  function ZoneCount(pool: ManagedPool): (n: int)
    ensures n > 0
  {
    if |pool.locations| != 0 then |pool.locations| else DefaultZones
  }

  /** The number of nodes a new pool asks for: per zone in a regional cluster, in all otherwise. */
  function InitialNodeCount(pool: ManagedPool, owner: MachinePool, regional: bool): int {
    if regional then Quotient(owner.replicas, ZoneCount(pool)) else owner.replicas
  }

  predicate Preflight(pool: ManagedPool, owner: MachinePool, location: string) {
    && owner.refName == pool.name
    && (IsRegional(location) ==> Remainder(owner.replicas, ZoneCount(pool)) == 0)
  }

  predicate AllPass(pools: seq<ManagedPool>, owners: seq<MachinePool>, location: string) {
    |pools| == |owners| && forall j :: 0 <= j < |pools| ==> Preflight(pools[j], owners[j], location)
  }

  datatype PreflightResult = Passed | NoMatchingPools | Refused(index: nat)

  /** Pools and owners are matched by position; the first refused pair ends the check. */
  method PreflightAll(pools: seq<ManagedPool>, owners: seq<MachinePool>, location: string) returns (r: PreflightResult)
    ensures r == Passed <==> AllPass(pools, owners, location)
    ensures r == NoMatchingPools <==> |owners| != |pools|
    ensures r.Refused? ==>
              && r.index < |pools| == |owners| && !Preflight(pools[r.index], owners[r.index], location)
              && forall j :: 0 <= j < r.index ==> Preflight(pools[j], owners[j], location)
  {
    if |owners| != |pools| {
      return NoMatchingPools;
    }
    for i := 0 to |pools|
      invariant forall j :: 0 <= j < i ==> Preflight(pools[j], owners[j], location)
    {
      if !Preflight(pools[i], owners[i], location) {
        return Refused(i);
      }
    }
    return Passed;
  }

  /**
    Replica conservation: lists that pass preflight pair each pool with its owner, and spread the owner's replicas
    exactly over the pool's zones, three if it names none.
   */
  lemma ReplicasConserved(pools: seq<ManagedPool>, owners: seq<MachinePool>, location: string, i: nat)
    requires Parse(location).Some? && i < |pools|
    requires AllPass(pools, owners, Parse(location).value.region)
    ensures var zones := if pools[i].locations == [] then 3 else |pools[i].locations|;
      && owners[i].refName == pools[i].name
      && InitialNodeCount(pools[i], owners[i], IsRegional(Parse(location).value.region)) * zones == owners[i].replicas
  {
    RegionIsRegional(location);
  }
}
