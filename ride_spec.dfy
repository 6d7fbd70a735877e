/**
 * What a generated ride is: the six ride slots the generator fills for every
 * vehicle, the arithmetic that ties each ride's fields together, and the
 * shape of the whole batch (six rides per vehicle, in vehicle order).
 */
module RideSpec {
  import opened Entities
  import opened Externals
  import opened Store

  /**
   * One of the six rides made per vehicle: the window of days back from
   * now for its start (`Next(daysLo, daysHi)`), the lower bound of its
   * rating draw (`Next(ratingLo, 5)`), its comment and its addresses.
   */
  datatype SlotSpec = SlotSpec(
    daysLo: int,
    daysHi: int,
    ratingLo: int,
    comments: string,
    startAddress: string,
    endAddress: string)

  /** Slots 1 .. 6, in the order the generator emits them. */
  function Slots(): seq<SlotSpec> {
    [
    SlotSpec(15, 30, 3, "", "Madison Ave 10037", "217 Broadway"),
    SlotSpec(15, 30, 3, "", "217 Broadway", "E 156th St, Bronx"),
    SlotSpec(0, 15, 2, "", "54 Fulton St", "E 156th St, Bronx"),
    SlotSpec(0, 15, 2, "", "E 156th St, Bronx", "33 Wooster St"),
    SlotSpec(10, 20, 2, "", "48 Wall St", "Madison Ave 10037"),
    SlotSpec(0, 10, 2, "Great service!", "33 Wooster St", "48 Wall St")
    ]
  }

  /** `t` is a whole number of days before `now`, between `lo` days (inclusive) and `hi` days (exclusive). */
  predicate DaysBefore(now: int, t: int, lo: int, hi: int) {
    (now - t) % MinutesPerDay == 0 && lo <= (now - t) / MinutesPerDay < hi
  }

  /**
   * The employee a ride may be charged to: `employeeList[Next(0, n - 1)]`.
   * With one employee that is the only one; with more, any but the last.
   */
  predicate Pickable(e: int, emps: seq<int>) {
    if |emps| == 0 then false
    else if |emps| == 1 then e == emps[0]
    else e in emps[..|emps| - 1]
  }

  /**
   * Ride slot `slot` (1 .. 6) generated for vehicle `v`, charged to carrier
   * `carrierId`, at clock reading `now`, with employee keys `emps`.
   */
  predicate SlotRide(r: Ride, v: Vehicle, slot: nat, carrierId: int, now: int, emps: seq<int>)
    requires 1 <= slot <= 6
  {
    var s := Slots()[slot - 1];
    && r.vehicleId == v.vehicleId
    && r.driverId == v.driverId
    && r.carrierId == carrierId
    && DaysBefore(now, r.start, s.daysLo, s.daysHi)
    && 20 <= r.distance < 40
    && r.end == r.start + 3 * r.distance
    && r.cost == r.distance * v.rate
    && r.duration == (if slot == 2 then 20 else 3 * r.distance)
    && s.ratingLo <= r.rating < 5
    && Pickable(r.employeeId, emps)
    && r.comments == s.comments
    && r.startAddress == s.startAddress
    && r.endAddress == s.endAddress
  }

  /** The six rides made for one vehicle, slot by slot. */
  predicate VehicleRides(rs: seq<Ride>, v: Vehicle, carrierId: int, now: int, emps: seq<int>) {
    |rs| == 6 && forall i :: 0 <= i < 6 ==> SlotRide(rs[i], v, i + 1, carrierId, now, emps)
  }

  /** The rides made for a whole fleet: six per vehicle, in vehicle order. */
  predicate FleetRides(rs: seq<Ride>, vs: seq<Vehicle>, carrierId: int, now: int, emps: seq<int>)
    decreases |vs|
  {
    if vs == [] then rs == []
    else
      && 6 <= |rs|
      && VehicleRides(rs[..6], vs[0], carrierId, now, emps)
      && FleetRides(rs[6..], vs[1..], carrierId, now, emps)
  }

  /** Rides charged to vehicle `vid`. */
  function RidesOfVehicle(rs: seq<Ride>, vid: int): nat {
    if rs == [] then 0 else (if rs[0].vehicleId == vid then 1 else 0) + RidesOfVehicle(rs[1..], vid)
  }

  /** Rides charged to employee `eid`. */
  function RidesOfEmployee(rs: seq<Ride>, eid: int): nat {
    if rs == [] then 0 else (if rs[0].employeeId == eid then 1 else 0) + RidesOfEmployee(rs[1..], eid)
  }

  predicate Distinct(keys: seq<int>) {
    forall i, j :: 0 <= i < j < |keys| ==> keys[i] != keys[j]
  }

  // ---------------------------------------------------------------------
  // Facts about single rides.

  /** Every generated ride ends after it starts. */
  lemma EndsAfterStart(r: Ride, v: Vehicle, slot: nat, carrierId: int, now: int, emps: seq<int>)
    requires 1 <= slot <= 6 && SlotRide(r, v, slot, carrierId, now, emps)
    ensures r.start < r.end
  {
  }

  /** In every slot but the second, the recorded duration is the time from start to end. */
  lemma DurationMatchesTimes(r: Ride, v: Vehicle, slot: nat, carrierId: int, now: int, emps: seq<int>)
    requires 1 <= slot <= 6 && SlotRide(r, v, slot, carrierId, now, emps)
    ensures r.duration == r.end - r.start <==> slot != 2
  {
  }

  /** A ride started at least one day back has ended by now: it lasts under two hours. */
  lemma EndsBeforeNow(r: Ride, v: Vehicle, slot: nat, carrierId: int, now: int, emps: seq<int>)
    requires 1 <= slot <= 6 && SlotRide(r, v, slot, carrierId, now, emps)
    requires slot in {1, 2, 5}
    ensures r.end < now
  {
    var s := Slots()[slot - 1];
    assert 10 <= s.daysLo;
  }

  /** Slots 3, 4 and 6 may start today, and such a ride ends after now. */
  lemma SameDayRideEndsLater(v: Vehicle, slot: nat, carrierId: int, now: int, emps: seq<int>)
    requires slot in {3, 4, 6} && |emps| > 0
    ensures exists r :: SlotRide(r, v, slot, carrierId, now, emps) && r.end > now
  {
    var s := Slots()[slot - 1];
    var r := Ride(Guid(0), now, now + 60, v.vehicleId, v.driverId, emps[0], carrierId, 20, 60, 20 * v.rate,
                  s.ratingLo, s.comments, s.startAddress, s.endAddress);
    assert DaysBefore(now, r.start, s.daysLo, s.daysHi);
    assert Pickable(r.employeeId, emps);
    assert SlotRide(r, v, slot, carrierId, now, emps);
  }

  /** With two or more distinct employees, the last one is never charged. */
  lemma LastEmployeeNeverPickable(e: int, emps: seq<int>)
    requires 2 <= |emps| && Distinct(emps) && Pickable(e, emps)
    ensures e != emps[|emps| - 1]
  {
    var k :| 0 <= k < |emps| - 1 && emps[..|emps| - 1][k] == e;
    assert emps[k] == e;
  }

  /** Every key but the last can be picked. */
  lemma OthersPickable(emps: seq<int>, k: nat)
    requires 2 <= |emps| && k < |emps| - 1
    ensures Pickable(emps[k], emps)
  {
    assert emps[..|emps| - 1][k] == emps[k];
  }

  // ---------------------------------------------------------------------
  // The shape of a batch.

  /** Adding one vehicle's six rides at the end extends the batch by that vehicle. */
  lemma {:induction false} FleetRidesExtend(rs: seq<Ride>, vs: seq<Vehicle>, block: seq<Ride>, v: Vehicle,
                                            carrierId: int, now: int, emps: seq<int>)
    requires FleetRides(rs, vs, carrierId, now, emps)
    requires VehicleRides(block, v, carrierId, now, emps)
    ensures FleetRides(rs + block, vs + [v], carrierId, now, emps)
    decreases |vs|
  {
    if vs == [] {
      assert (rs + block)[..6] == block && (rs + block)[6..] == [];
      assert (vs + [v])[0] == v && (vs + [v])[1..] == [];
    } else {
      FleetRidesExtend(rs[6..], vs[1..], block, v, carrierId, now, emps);
      assert (rs + block)[..6] == rs[..6];
      assert (rs + block)[6..] == rs[6..] + block;
      assert (vs + [v])[0] == vs[0] && (vs + [v])[1..] == vs[1..] + [v];
    }
  }

  /** A batch holds exactly six rides per vehicle. */
  lemma {:induction false} FleetRidesLength(rs: seq<Ride>, vs: seq<Vehicle>, carrierId: int, now: int, emps: seq<int>)
    requires FleetRides(rs, vs, carrierId, now, emps)
    ensures |rs| == 6 * |vs|
    decreases |vs|
  {
    if vs != [] {
      FleetRidesLength(rs[6..], vs[1..], carrierId, now, emps);
    }
  }

  /** Ride `j` of a batch is slot `j % 6 + 1` of vehicle `j / 6`. */
  lemma {:induction false} FleetRideAt(rs: seq<Ride>, vs: seq<Vehicle>, carrierId: int, now: int, emps: seq<int>, j: nat)
    requires FleetRides(rs, vs, carrierId, now, emps) && j < |rs|
    ensures j / 6 < |vs| && SlotRide(rs[j], vs[j / 6], j % 6 + 1, carrierId, now, emps)
    decreases |vs|
  {
    if j < 6 {
      assert rs[..6][j] == rs[j];
      assert j / 6 == 0 && j % 6 == j;
      assert SlotRide(rs[..6][j], vs[0], j + 1, carrierId, now, emps);
    } else {
      FleetRideAt(rs[6..], vs[1..], carrierId, now, emps, j - 6);
      assert rs[6..][j - 6] == rs[j];
      assert (j - 6) / 6 == j / 6 - 1 && (j - 6) % 6 == j % 6;
    }
  }

  lemma {:induction false} RidesOfVehicleAppend(a: seq<Ride>, b: seq<Ride>, vid: int)
    ensures RidesOfVehicle(a + b, vid) == RidesOfVehicle(a, vid) + RidesOfVehicle(b, vid)
    decreases |a|
  {
    if a != [] {
      RidesOfVehicleAppend(a[1..], b, vid);
      assert (a + b)[0] == a[0] && (a + b)[1..] == a[1..] + b;
    } else {
      assert a + b == b;
    }
  }

  lemma {:induction false} RidesOfEmployeeAppend(a: seq<Ride>, b: seq<Ride>, eid: int)
    ensures RidesOfEmployee(a + b, eid) == RidesOfEmployee(a, eid) + RidesOfEmployee(b, eid)
    decreases |a|
  {
    if a != [] {
      RidesOfEmployeeAppend(a[1..], b, eid);
      assert (a + b)[0] == a[0] && (a + b)[1..] == a[1..] + b;
    } else {
      assert a + b == b;
    }
  }

  /** Rides that all carry the same vehicle key are all counted for it, and for no other key. */
  lemma {:induction false} UniformRidesOfVehicle(rs: seq<Ride>, w: int, vid: int)
    requires forall j :: 0 <= j < |rs| ==> rs[j].vehicleId == w
    ensures RidesOfVehicle(rs, vid) == if vid == w then |rs| else 0
    decreases |rs|
  {
    if rs != [] {
      assert rs[0].vehicleId == w;
      UniformRidesOfVehicle(rs[1..], w, vid);
    }
  }

  /** The six rides of one vehicle are all charged to that vehicle. */
  lemma VehicleRidesCount(block: seq<Ride>, v: Vehicle, carrierId: int, now: int, emps: seq<int>, vid: int)
    requires VehicleRides(block, v, carrierId, now, emps)
    ensures RidesOfVehicle(block, vid) == if vid == v.vehicleId then 6 else 0
  {
    UniformRidesOfVehicle(block, v.vehicleId, vid);
  }

  /**
   * Every vehicle of the fleet gets exactly six rides, and a key that is not
   * a vehicle of the fleet gets none.
   */
  lemma {:induction false} RidesPerVehicle(rs: seq<Ride>, vs: seq<Vehicle>, carrierId: int, now: int, emps: seq<int>, vid: int)
    requires FleetRides(rs, vs, carrierId, now, emps)
    requires Distinct(VehicleIds(vs))
    ensures RidesOfVehicle(rs, vid) == if vid in VehicleIds(vs) then 6 else 0
    decreases |vs|
  {
    if vs != [] {
      assert rs == rs[..6] + rs[6..];
      RidesOfVehicleAppend(rs[..6], rs[6..], vid);
      VehicleRidesCount(rs[..6], vs[0], carrierId, now, emps, vid);
      assert VehicleIds(vs) == [vs[0].vehicleId] + VehicleIds(vs[1..]);
      assert Distinct(VehicleIds(vs[1..])) by {
        forall i, j | 0 <= i < j < |vs| - 1
          ensures VehicleIds(vs[1..])[i] != VehicleIds(vs[1..])[j]
        {
          assert VehicleIds(vs)[i + 1] != VehicleIds(vs)[j + 1];
        }
      }
      RidesPerVehicle(rs[6..], vs[1..], carrierId, now, emps, vid);
      if vid == vs[0].vehicleId {
        assert vid !in VehicleIds(vs[1..]) by {
          forall i | 0 <= i < |vs| - 1 ensures VehicleIds(vs[1..])[i] != vid {
            assert VehicleIds(vs)[0] != VehicleIds(vs)[i + 1];
          }
        }
      }
    }
  }

  /** A key that no ride carries has no rides. */
  lemma {:induction false} NoRidesOfEmployee(rs: seq<Ride>, eid: int)
    requires forall j :: 0 <= j < |rs| ==> rs[j].employeeId != eid
    ensures RidesOfEmployee(rs, eid) == 0
    decreases |rs|
  {
    if rs != [] {
      assert rs[0].employeeId != eid;
      NoRidesOfEmployee(rs[1..], eid);
    }
  }

  /** With two or more distinct employees, the last one is charged no ride of the batch. */
  lemma LastEmployeeRidesNone(rs: seq<Ride>, vs: seq<Vehicle>, carrierId: int, now: int, emps: seq<int>)
    requires FleetRides(rs, vs, carrierId, now, emps)
    requires 2 <= |emps| && Distinct(emps)
    ensures RidesOfEmployee(rs, emps[|emps| - 1]) == 0
  {
    forall j | 0 <= j < |rs| ensures rs[j].employeeId != emps[|emps| - 1] {
      FleetRideAt(rs, vs, carrierId, now, emps, j);
      LastEmployeeNeverPickable(rs[j].employeeId, emps);
    }
    NoRidesOfEmployee(rs, emps[|emps| - 1]);
  }
}
