/**
 * The database the seeding routine writes to, seen through the operations it
 * uses: schema creation, adding rows, and the key assignment that
 * `SaveChanges` performs.  Each table is a sequence in insertion order; each
 * keyed table has an auto-increment counter that hands out the next key.
 * The identity store is a separate map from login name to account.
 */
module Store {
  import opened Entities
  import opened Wrappers

  /** Keys handed out by an auto-increment counter: positive, below the counter, increasing in insertion order. */
  predicate Keyed(keys: seq<int>, next: int) {
    && 1 <= next
    && (forall i :: 0 <= i < |keys| ==> 1 <= keys[i] < next)
    && (forall i, j :: 0 <= i < j < |keys| ==> keys[i] < keys[j])
  }

  /** Increasing positive keys are each at least their position plus one. */
  lemma {:induction false} KeysAtLeastPosition(keys: seq<int>, next: int)
    requires Keyed(keys, next)
    ensures forall i :: 0 <= i < |keys| ==> i + 1 <= keys[i]
    decreases |keys|
  {
    if keys != [] {
      var n := |keys|;
      var front := keys[..n - 1];
      assert forall i :: 0 <= i < n - 1 ==> front[i] == keys[i];
      KeysAtLeastPosition(front, keys[n - 1]);
      if n >= 2 {
        assert keys[n - 2] < keys[n - 1];
      }
    }
  }

  /**
   * A counter that started at 1 and has handed out exactly one key per row
   * handed out 1, 2, 3, ... in insertion order.
   */
  lemma {:induction false} DenseKeys(keys: seq<int>, next: int)
    requires Keyed(keys, next) && |keys| == next - 1
    ensures forall i :: 0 <= i < |keys| ==> keys[i] == i + 1
    decreases |keys|
  {
    if keys != [] {
      var n := |keys|;
      KeysAtLeastPosition(keys, next);
      assert keys[n - 1] == n;
      var front := keys[..n - 1];
      assert forall i :: 0 <= i < n - 1 ==> front[i] == keys[i];
      DenseKeys(front, keys[n - 1]);
    }
  }

  lemma EmptyIsKeyed()
    ensures Keyed(CustomerIds([]), 1) && Keyed(EmployeeIds([]), 1) && Keyed(CarrierIds([]), 1)
    ensures Keyed(DriverIds([]), 1) && Keyed(VehicleIds([]), 1)
  {
  }

  function CustomerIds(cs: seq<Customer>): (ids: seq<int>)
    ensures |ids| == |cs| && forall i :: 0 <= i < |cs| ==> ids[i] == cs[i].customerId
  {
    seq(|cs|, i requires 0 <= i < |cs| => cs[i].customerId)
  }

  function EmployeeIds(es: seq<Employee>): (ids: seq<int>)
    ensures |ids| == |es| && forall i :: 0 <= i < |es| ==> ids[i] == es[i].employeeId
  {
    seq(|es|, i requires 0 <= i < |es| => es[i].employeeId)
  }

  function CarrierIds(cs: seq<Carrier>): (ids: seq<int>)
    ensures |ids| == |cs| && forall i :: 0 <= i < |cs| ==> ids[i] == cs[i].carrierId
  {
    seq(|cs|, i requires 0 <= i < |cs| => cs[i].carrierId)
  }

  function DriverIds(ds: seq<Driver>): (ids: seq<int>)
    ensures |ids| == |ds| && forall i :: 0 <= i < |ds| ==> ids[i] == ds[i].driverId
  {
    seq(|ds|, i requires 0 <= i < |ds| => ds[i].driverId)
  }

  function VehicleIds(vs: seq<Vehicle>): (ids: seq<int>)
    ensures |ids| == |vs| && forall i :: 0 <= i < |vs| ==> ids[i] == vs[i].vehicleId
  {
    seq(|vs|, i requires 0 <= i < |vs| => vs[i].vehicleId)
  }

  /** `SaveChanges` after `AddRange`: the new employees get consecutive keys from `first`. */
  function NumberEmployees(es: seq<Employee>, first: int): (r: seq<Employee>)
    ensures |r| == |es|
    ensures forall i :: 0 <= i < |es| ==> r[i] == es[i].(employeeId := first + i)
  {
    seq(|es|, i requires 0 <= i < |es| => es[i].(employeeId := first + i))
  }

  /** `SaveChanges` after `AddRange`: the new drivers get consecutive keys from `first`. */
  function NumberDrivers(ds: seq<Driver>, first: int): (r: seq<Driver>)
    ensures |r| == |ds|
    ensures forall i :: 0 <= i < |ds| ==> r[i] == ds[i].(driverId := first + i)
  {
    seq(|ds|, i requires 0 <= i < |ds| => ds[i].(driverId := first + i))
  }

  /** The rows of every table at one moment. */
  datatype Tables = Tables(
    customers: seq<Customer>,
    employees: seq<Employee>,
    carriers: seq<Carrier>,
    drivers: seq<Driver>,
    vehicles: seq<Vehicle>,
    rides: seq<Ride>)

  /** The database context: one sequence per table and one key counter per keyed table. */
  class ShuttleContext {
    var created: bool
    var customers: seq<Customer>
    var employees: seq<Employee>
    var carriers: seq<Carrier>
    var drivers: seq<Driver>
    var vehicles: seq<Vehicle>
    var rides: seq<Ride>
    var nextCustomerId: int
    var nextEmployeeId: int
    var nextCarrierId: int
    var nextDriverId: int
    var nextVehicleId: int

    /** Keys come from the counters; a store whose schema does not exist yet has no rows. */
    ghost predicate Valid()
      reads this
    {
      && (!created ==> Empty())
      && Keyed(CustomerIds(customers), nextCustomerId)
      && Keyed(EmployeeIds(employees), nextEmployeeId)
      && Keyed(CarrierIds(carriers), nextCarrierId)
      && Keyed(DriverIds(drivers), nextDriverId)
      && Keyed(VehicleIds(vehicles), nextVehicleId)
    }

    /** No rows in any table, and every key counter at 1. */
    ghost predicate Empty()
      reads this
    {
      && customers == [] && employees == [] && carriers == [] && drivers == [] && vehicles == [] && rides == []
      && nextCustomerId == 1 && nextEmployeeId == 1 && nextCarrierId == 1 && nextDriverId == 1 && nextVehicleId == 1
    }

    function Contents(): Tables
      reads this
    {
      Tables(customers, employees, carriers, drivers, vehicles, rides)
    }

    /** A store whose schema does not exist yet. */
    constructor ()
      ensures Valid() && !created
    {
      created := false;
      customers, nextCustomerId := [], 1;
      employees, nextEmployeeId := [], 1;
      carriers, nextCarrierId := [], 1;
      drivers, nextDriverId := [], 1;
      vehicles, nextVehicleId := [], 1;
      rides := [];
      EmptyIsKeyed();
    }

    /** A store that already exists, with whatever rows it holds. */
    constructor Existing(t: Tables, customerNext: int, employeeNext: int, carrierNext: int, driverNext: int,
                         vehicleNext: int)
      requires Keyed(CustomerIds(t.customers), customerNext) && Keyed(EmployeeIds(t.employees), employeeNext)
      requires Keyed(CarrierIds(t.carriers), carrierNext) && Keyed(DriverIds(t.drivers), driverNext)
      requires Keyed(VehicleIds(t.vehicles), vehicleNext)
      ensures Valid() && created && Contents() == t
      ensures nextCustomerId == customerNext && nextEmployeeId == employeeNext && nextCarrierId == carrierNext
      ensures nextDriverId == driverNext && nextVehicleId == vehicleNext
    {
      created := true;
      customers, employees, carriers, drivers, vehicles, rides :=
        t.customers, t.employees, t.carriers, t.drivers, t.vehicles, t.rides;
      nextCustomerId, nextEmployeeId, nextCarrierId, nextDriverId, nextVehicleId :=
        customerNext, employeeNext, carrierNext, driverNext, vehicleNext;
    }

    /**
     * `Database.EnsureCreated`: reports whether it created the schema.  A new
     * schema has empty tables whose counters start at 1; an existing store is
     * left exactly as it was.
     */
    method EnsureCreated() returns (wasCreated: bool)
      requires Valid()
      modifies this`created
      ensures created
      ensures wasCreated == !old(created)
      ensures Valid()
      ensures wasCreated ==> Empty()
      ensures !wasCreated ==> unchanged(this)
    {
      if created {
        return false;
      }
      created := true;
      return true;
    }

    /** `Customers.Add` then `SaveChanges`: the row gets the next key, which is returned. */
    method AddCustomer(c: Customer) returns (id: int)
      requires Valid() && created
      modifies this`customers, this`nextCustomerId
      ensures Valid()
      ensures id == old(nextCustomerId) && nextCustomerId == id + 1
      ensures customers == old(customers) + [c.(customerId := id)]
    {
      id := nextCustomerId;
      customers := customers + [c.(customerId := id)];
      nextCustomerId := nextCustomerId + 1;
      assert CustomerIds(customers) == CustomerIds(old(customers)) + [id];
    }

    /** `Employees.AddRange` then `SaveChanges`. */
    method AddEmployees(es: seq<Employee>)
      requires Valid() && created
      modifies this`employees, this`nextEmployeeId
      ensures Valid()
      ensures employees == old(employees) + NumberEmployees(es, old(nextEmployeeId))
      ensures nextEmployeeId == old(nextEmployeeId) + |es|
    {
      var first := nextEmployeeId;
      employees := employees + NumberEmployees(es, first);
      nextEmployeeId := first + |es|;
      ghost var ids := EmployeeIds(employees);
      assert forall i :: |old(employees)| <= i < |ids| ==> ids[i] == first + (i - |old(employees)|);
    }

    /** `Carriers.Add` then `SaveChanges`. */
    method AddCarrier(c: Carrier) returns (id: int)
      requires Valid() && created
      modifies this`carriers, this`nextCarrierId
      ensures Valid()
      ensures id == old(nextCarrierId) && nextCarrierId == id + 1
      ensures carriers == old(carriers) + [c.(carrierId := id)]
    {
      id := nextCarrierId;
      carriers := carriers + [c.(carrierId := id)];
      nextCarrierId := nextCarrierId + 1;
      assert CarrierIds(carriers) == CarrierIds(old(carriers)) + [id];
    }

    /** `Drivers.Add` then `SaveChanges`. */
    method AddDriver(d: Driver) returns (id: int)
      requires Valid() && created
      modifies this`drivers, this`nextDriverId
      ensures Valid()
      ensures id == old(nextDriverId) && nextDriverId == id + 1
      ensures drivers == old(drivers) + [d.(driverId := id)]
    {
      id := nextDriverId;
      drivers := drivers + [d.(driverId := id)];
      nextDriverId := nextDriverId + 1;
      assert DriverIds(drivers) == DriverIds(old(drivers)) + [id];
    }

    /** `Drivers.AddRange` then `SaveChanges`. */
    method AddDrivers(ds: seq<Driver>)
      requires Valid() && created
      modifies this`drivers, this`nextDriverId
      ensures Valid()
      ensures drivers == old(drivers) + NumberDrivers(ds, old(nextDriverId))
      ensures nextDriverId == old(nextDriverId) + |ds|
    {
      var first := nextDriverId;
      drivers := drivers + NumberDrivers(ds, first);
      nextDriverId := first + |ds|;
      ghost var ids := DriverIds(drivers);
      assert forall i :: |old(drivers)| <= i < |ids| ==> ids[i] == first + (i - |old(drivers)|);
    }

    /** `Vehicles.Add` then `SaveChanges`. */
    method AddVehicle(v: Vehicle) returns (id: int)
      requires Valid() && created
      modifies this`vehicles, this`nextVehicleId
      ensures Valid()
      ensures id == old(nextVehicleId) && nextVehicleId == id + 1
      ensures vehicles == old(vehicles) + [v.(vehicleId := id)]
    {
      id := nextVehicleId;
      vehicles := vehicles + [v.(vehicleId := id)];
      nextVehicleId := nextVehicleId + 1;
      assert VehicleIds(vehicles) == VehicleIds(old(vehicles)) + [id];
    }

    /** `Rides.AddRange` then `SaveChanges`; the rides' integer key is not modelled. */
    method AddRides(rs: seq<Ride>)
      requires Valid() && created
      modifies this`rides
      ensures Valid()
      ensures rides == old(rides) + rs
    {
      rides := rides + rs;
    }
  }

  /** The identity store: accounts by login name. */
  class UserManager {
    var users: map<string, ApplicationUser>

    constructor (accounts: map<string, ApplicationUser>)
      ensures users == accounts
    {
      users := accounts;
    }

    /** `FindByName`: the account with that login, or nothing. */
    method FindByName(login: string) returns (found: Option<ApplicationUser>)
      ensures found.Some? <==> login in users
      ensures found.Some? ==> found.value == users[login]
    {
      found := if login in users then Some(users[login]) else None;
    }

    /** `CreateAsync(user, password)`: stores the account under its login with that credential. */
    method Create(user: ApplicationUser, password: string)
      modifies this
      ensures users == old(users)[user.userName := user.(password := password)]
    {
      users := users[user.userName := user.(password := password)];
    }

    /** `AddClaimAsync`: appends one claim to an existing account. */
    method AddClaim(login: string, claim: Claim)
      requires login in users
      modifies this
      ensures users == old(users)[login := old(users)[login].(claims := old(users)[login].claims + [claim])]
    {
      users := users[login := users[login].(claims := users[login].claims + [claim])];
    }
  }
}
