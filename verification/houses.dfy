/** The in-memory registry of house locations: administrator-created points
    that players may own, each with its own parking lots and, once a house has
    been created on it, an owner and an interior. */
module Houses {
  import opened Wrappers
  import opened Geometry
  import Collections

  /** The player on whose behalf an operation runs. `userId` is present once
      the player has identified to their account. */
  datatype Player = Player(userId: Option<int>, name: string, position: Vector)

  /** Why a manager operation was refused. */
  datatype HouseError =
    | NotRegistered    // the requesting player has not identified
    | NotFound         // the location or parking lot is not in the manager
    | AlreadyOccupied  // a house already exists on the location

  /** A spot attached to a location where a vehicle may spawn. */
  datatype ParkingLot = ParkingLot(id: nat, position: Vector, rotation: int)

  /** The owner of the house on a location. */
  datatype LocationSettings = LocationSettings(ownerId: int, ownerName: string)

  /** The interior assigned to the house on a location. */
  datatype InteriorSettings = InteriorSettings(interiorId: int)

  /** A location on which a house can be created. The object outlives its
      removal from the manager, so it is a class whose fields change in place. */
  class Location {
    const id: nat
    const position: Vector
    var settings: Option<LocationSettings>
    var interior: Option<InteriorSettings>
    var parkingLots: map<nat, ParkingLot>
    var nextParkingLotId: nat

    /** An owner exists exactly when an interior does; every parking lot is
        filed under its own positive id, below the next id to hand out. */
    ghost predicate Valid()
      reads this
    {
      && (settings.Some? <==> interior.Some?)
      && 0 < nextParkingLotId
      && forall lotId :: lotId in parkingLots ==>
           0 < lotId < nextParkingLotId && parkingLots[lotId].id == lotId
    }

    /** No house has been created on the location: in a valid location, there
        is then no interior either. */
    predicate IsAvailable()
      reads this
      ensures Valid() ==> (IsAvailable() <==> interior.None?)
    {
      settings.None?
    }

    function ParkingLotCount(): (count: nat)
      reads this
      ensures count == 0 <==> parkingLots == map[]
    {
      |parkingLots|
    }

    /** An unowned location without parking lots. */
    constructor (id: nat, position: Vector)
      ensures this.id == id && this.position == position
      ensures Valid() && IsAvailable() && interior.None? && parkingLots == map[]
    {
      this.id := id;
      this.position := position;
      settings := None;
      interior := None;
      parkingLots := map[];
      nextParkingLotId := 1;
    }

    /** The location's parking lots, each listed once. */
    method ParkingLots() returns (lots: seq<ParkingLot>)
      requires Valid()
      ensures |lots| == ParkingLotCount()
      ensures forall lot :: lot in lots <==> lot in parkingLots.Values
      ensures forall i, j :: 0 <= i < j < |lots| ==> lots[i].id != lots[j].id
    {
      var ids := Collections.Enumerate(parkingLots.Keys);
      lots := [];
      for k := 0 to |ids|
        invariant |lots| == k
        invariant forall i :: 0 <= i < k ==> lots[i] == parkingLots[ids[i]]
      {
        lots := lots + [parkingLots[ids[k]]];
      }
      forall lot | lot in parkingLots.Values
        ensures lot in lots
      {
        var lotId :| lotId in parkingLots && parkingLots[lotId] == lot;
        var i :| 0 <= i < |ids| && ids[i] == lotId;
        assert lots[i] == lot;
      }
    }
  }

  /** `a` comes no later than `b` in the search order around `origin`: nearer
      first, and the lower id first between two at the same distance. */
  predicate Precedes(a: Location, b: Location, origin: Vector) {
    var da, db := SquaredDistance(origin, a.position), SquaredDistance(origin, b.position);
    da < db || (da == db && a.id <= b.id)
  }

  /** `c` is a nearest member of `candidates` to `origin`. */
  ghost predicate IsClosest(c: Location, candidates: set<Location>, origin: Vector) {
    c in candidates && forall l :: l in candidates ==> Precedes(c, l, origin)
  }

  /** Whether `position` lies within `maximumDistance` of `origin`, when a
      maximum is given. */
  predicate WithinReach(origin: Vector, position: Vector, maximumDistance: Option<nat>) {
    maximumDistance.None? || SquaredDistance(origin, position) <= maximumDistance.value * maximumDistance.value
  }

  /** The house manager: the set of all locations. */
  class HouseManager {
    var locations: set<Location>
    var nextLocationId: nat

    /** Every location is valid and carries a distinct positive id below the
        next id to hand out. */
    ghost predicate Valid()
      reads this, locations
    {
      && 0 < nextLocationId
      && (forall l :: l in locations ==> l.Valid() && 0 < l.id < nextLocationId)
      && (forall a, b :: a in locations && b in locations && a.id == b.id ==> a == b)
    }

    function LocationCount(): (count: nat)
      reads this
      ensures count == 0 <==> locations == {}
    {
      |locations|
    }

    /** A manager holding no locations. */
    constructor ()
      ensures Valid() && locations == {} && LocationCount() == 0
    {
      locations := {};
      nextLocationId := 1;
    }

    /** Every location, each listed once: `Array.from(manager.locations_)`. */
    method Locations() returns (all: seq<Location>)
      ensures |all| == LocationCount()
      ensures forall l :: l in all <==> l in locations
      ensures forall i, j :: 0 <= i < j < |all| ==> all[i] != all[j]
    {
      all := Collections.Enumerate(locations);
    }

    /** Creates an unowned location at `position` on behalf of `player`, who
        must have identified. */
    method CreateLocation(player: Player, position: Vector) returns (r: Result<Location, HouseError>)
      requires Valid()
      modifies this
      ensures Valid()
      ensures player.userId.None? ==> r == Failure(NotRegistered) && locations == old(locations)
      ensures player.userId.Some? ==>
        && r.Success? && fresh(r.value)
        && r.value.position == position && r.value.IsAvailable() && r.value.ParkingLotCount() == 0
        && locations == old(locations) + {r.value}
      ensures LocationCount() == old(LocationCount()) + (if r.Success? then 1 else 0)
    {
      if player.userId.None? {
        return Failure(NotRegistered);
      }
      var location := new Location(nextLocationId, position);
      assert location !in locations;
      locations := locations + {location};
      nextLocationId := nextLocationId + 1;
      r := Success(location);
    }

    /** Removes `location` from the manager. The location object itself is
        left as it was: a house on it still reports its owner afterwards. */
    method RemoveLocation(location: Location) returns (r: Outcome<HouseError>)
      requires Valid()
      modifies this
      ensures Valid()
      ensures old(location in locations) ==>
        r == Pass && locations == old(locations) - {location} && LocationCount() == old(LocationCount()) - 1
      ensures old(location !in locations) ==> r == Fail(NotFound) && locations == old(locations)
      ensures unchanged(location)
    {
      if location !in locations {
        return Fail(NotFound);
      }
      locations := locations - {location};
      r := Pass;
    }

    /** The location nearest to `player`, ties going to the lower id; none when
        the manager is empty or the nearest one lies beyond `maximumDistance`. */
    method FindClosestLocation(player: Player, maximumDistance: Option<nat>) returns (r: Option<Location>)
      ensures r.Some? ==> IsClosest(r.value, locations, player.position)
      ensures r.Some? ==> WithinReach(player.position, r.value.position, maximumDistance)
      ensures r.None? <==>
        forall l :: l in locations ==> !WithinReach(player.position, l.position, maximumDistance)
    {
      var origin := player.position;
      var best: Option<Location> := None;
      var remaining := locations;
      while remaining != {}
        invariant remaining <= locations
        invariant best.None? ==> remaining == locations
        invariant best.Some? ==> IsClosest(best.value, locations - remaining, origin)
        decreases |remaining|
      {
        var l :| l in remaining;
        if best.None? || Precedes(l, best.value, origin) {
          forall m | m in locations - remaining
            ensures Precedes(l, m, origin)
          {
            assert Precedes(best.value, m, origin);
          }
          best := Some(l);
        }
        remaining := remaining - {l};
      }
      if best.Some? && !WithinReach(origin, best.value.position, maximumDistance) {
        forall l | l in locations
          ensures !WithinReach(origin, l.position, maximumDistance)
        {
          assert Precedes(best.value, l, origin);
        }
        r := None;
      } else {
        r := best;
      }
    }

    /** Adds a parking lot at `position` facing `rotation` to `location`. The
        new lot gets a positive id that the location has not used before. */
    method CreateLocationParkingLot(location: Location, position: Vector, rotation: int)
      returns (r: Result<ParkingLot, HouseError>)
      requires Valid()
      modifies location
      ensures Valid()
      ensures location !in locations ==> r == Failure(NotFound) && unchanged(location)
      ensures location in locations ==>
        && r.Success? && r.value.id > 0 && r.value.id !in old(location.parkingLots)
        && r.value.id == old(location.nextParkingLotId) && location.nextParkingLotId == r.value.id + 1
        && r.value.position == position && r.value.rotation == rotation
        && location.parkingLots == old(location.parkingLots)[r.value.id := r.value]
        && location.ParkingLotCount() == old(location.ParkingLotCount()) + 1
        && location.settings == old(location.settings) && location.interior == old(location.interior)
    {
      if location !in locations {
        return Failure(NotFound);
      }
      var lot := ParkingLot(location.nextParkingLotId, position, rotation);
      assert lot.id !in location.parkingLots;
      location.parkingLots := location.parkingLots[lot.id := lot];
      location.nextParkingLotId := location.nextParkingLotId + 1;
      r := Success(lot);
    }

    /** Removes `parkingLot` from `location`. */
    method RemoveLocationParkingLot(location: Location, parkingLot: ParkingLot) returns (r: Outcome<HouseError>)
      requires Valid()
      modifies location
      ensures Valid()
      ensures location !in locations || parkingLot.id !in old(location.parkingLots) ==>
        r == Fail(NotFound) && unchanged(location)
      ensures location in locations && parkingLot.id in old(location.parkingLots) ==>
        && r == Pass
        && location.parkingLots == old(location.parkingLots) - {parkingLot.id}
        && location.ParkingLotCount() == old(location.ParkingLotCount()) - 1
        && location.settings == old(location.settings) && location.interior == old(location.interior)
        && location.nextParkingLotId == old(location.nextParkingLotId)
    {
      if location !in locations || parkingLot.id !in location.parkingLots {
        return Fail(NotFound);
      }
      location.parkingLots := location.parkingLots - {parkingLot.id};
      r := Pass;
    }

    /** Creates a house on `location`, owned by `player` and furnished with
        interior `interiorId`. Only an available location can take a house. */
    method CreateHouse(player: Player, location: Location, interiorId: int) returns (r: Outcome<HouseError>)
      requires Valid()
      modifies location
      ensures Valid()
      ensures location !in locations ==> r == Fail(NotFound)
      ensures location in locations && player.userId.None? ==> r == Fail(NotRegistered)
      ensures location in locations && player.userId.Some? && !old(location.IsAvailable()) ==>
        r == Fail(AlreadyOccupied)
      ensures r.Fail? ==> unchanged(location)
      ensures location in locations && player.userId.Some? && old(location.IsAvailable()) ==>
        && r == Pass && !location.IsAvailable()
        && location.settings == Some(LocationSettings(player.userId.value, player.name))
        && location.interior == Some(InteriorSettings(interiorId))
        && location.parkingLots == old(location.parkingLots)
        && location.nextParkingLotId == old(location.nextParkingLotId)
    {
      if location !in locations {
        return Fail(NotFound);
      }
      if player.userId.None? {
        return Fail(NotRegistered);
      }
      if !location.IsAvailable() {
        return Fail(AlreadyOccupied);
      }
      location.settings := Some(LocationSettings(player.userId.value, player.name));
      location.interior := Some(InteriorSettings(interiorId));
      r := Pass;
    }
  }

  /** Two different locations of a valid manager are never both nearest: the
      tie-break on the id makes the search result unique. */
  lemma ClosestIsUnique(manager: HouseManager, a: Location, b: Location, origin: Vector)
    requires manager.Valid()
    requires IsClosest(a, manager.locations, origin) && IsClosest(b, manager.locations, origin)
    ensures a == b
  {
    assert Precedes(a, b, origin) && Precedes(b, a, origin);
  }

  /** Creating a parking lot and removing it again leaves the location's
      parking lots as they were. */
  method CreateThenRemoveParkingLot(manager: HouseManager, location: Location, position: Vector, rotation: int)
    requires manager.Valid() && location in manager.locations
    modifies location
    ensures manager.Valid()
    ensures location.parkingLots == old(location.parkingLots)
    ensures location.ParkingLotCount() == old(location.ParkingLotCount())
  {
    var created := manager.CreateLocationParkingLot(location, position, rotation);
    var removed := manager.RemoveLocationParkingLot(location, created.value);
    assert removed == Pass;
  }

  /** Creating a parking lot, removing it and creating another: the second
      lot gets a different id, so ids of removed lots are not handed out again. */
  method ParkingLotIdsAreNotReused(manager: HouseManager, location: Location, position: Vector, rotation: int)
    returns (first: ParkingLot, second: ParkingLot)
    requires manager.Valid() && location in manager.locations
    modifies location
    ensures manager.Valid()
    ensures first.id != second.id && 0 < first.id && 0 < second.id
    ensures location.parkingLots == old(location.parkingLots)[second.id := second]
  {
    var created := manager.CreateLocationParkingLot(location, position, rotation);
    first := created.value;
    var removed := manager.RemoveLocationParkingLot(location, first);
    assert removed == Pass;
    var again := manager.CreateLocationParkingLot(location, position, rotation);
    second := again.value;
  }

  /** Two players creating a house on the same available location one after
      the other: the first succeeds, the second finds it occupied, and the
      first owner and interior stay. */
  method CreateHouseTwice(manager: HouseManager, first: Player, second: Player, location: Location,
                          interiorId: int, otherInteriorId: int)
    returns (firstResult: Outcome<HouseError>, secondResult: Outcome<HouseError>)
    requires manager.Valid() && location in manager.locations && location.IsAvailable()
    requires first.userId.Some? && second.userId.Some?
    modifies location
    ensures manager.Valid()
    ensures firstResult == Pass && secondResult == Fail(AlreadyOccupied)
    ensures location.settings == Some(LocationSettings(first.userId.value, first.name))
    ensures location.interior == Some(InteriorSettings(interiorId))
  {
    firstResult := manager.CreateHouse(first, location, interiorId);
    secondResult := manager.CreateHouse(second, location, otherInteriorId);
  }

  /** Creating a location and removing it again leaves the manager's
      locations as they were. */
  method CreateThenRemoveLocation(manager: HouseManager, player: Player, position: Vector)
    requires manager.Valid() && player.userId.Some?
    modifies manager
    ensures manager.Valid()
    ensures manager.locations == old(manager.locations)
    ensures manager.LocationCount() == old(manager.LocationCount())
  {
    var created := manager.CreateLocation(player, position);
    var removed := manager.RemoveLocation(created.value);
  }
}
