/**
 * The seeding routine itself: on first start it creates the schema, the
 * default carrier, the default sign-in account and the demo rows, drawing
 * every random value from one shared generator.  Each routine appends to the
 * store in the order the source does and promises what it appended.
 */
module Initializer {
  import opened Entities
  import opened Wrappers
  import opened Externals
  import opened Store
  import opened Recipe
  import opened RideSpec
  import opened SeedSpec

  // ---------------------------------------------------------------------
  // The default account.

  /** A configuration value, or `fallback` when the key is missing or its value is empty. */
  function Setting(config: map<string, string>, key: string, fallback: string): (v: string)
    ensures key in config && config[key] != "" ==> v == config[key]
    ensures key !in config || config[key] == "" ==> v == fallback
  {
    if key in config && config[key] != "" then config[key] else fallback
  }

  /** With a non-empty fallback, a setting is never empty. */
  lemma SettingNeverEmpty(config: map<string, string>, key: string, fallback: string)
    requires fallback != ""
    ensures Setting(config, key, fallback) != ""
  {
  }

  function Login(config: map<string, string>): string {
    Setting(config, "DefaultUsername", DefaultLogin)
  }

  function Password(config: map<string, string>): string {
    Setting(config, "DefaultPassword", DefaultPassword)
  }

  /**
   * The identity store after CreateDefaultUser: an existing account under
   * `login` is left alone; otherwise exactly one account is added, the
   * default one.
   */
  predicate UserSeeded(before: map<string, ApplicationUser>, after: map<string, ApplicationUser>,
                       login: string, password: string)
  {
    if login in before then after == before
    else login in after && DefaultAccount(after[login], login, password) && after == before[login := after[login]]
  }

  method CreateDefaultUser(users: UserManager, config: map<string, string>)
    modifies users
    ensures UserSeeded(old(users.users), users.users, Login(config), Password(config))
  {
    var login := Login(config);
    var password := Password(config);
    var user := users.FindByName(login);
    if user.None? {
      var account := ApplicationUser(login, DefaultCarrierId, true, login + EmailDomain, "", []);
      users.Create(account, password);
      users.AddClaim(login, ManageStore);
      assert users.users[login] == account.(password := password, claims := [ManageStore]);
    }
  }

  // ---------------------------------------------------------------------
  // Rows.

  /** CreateCarrier_01 .. CreateCarrier_08: carrier number `n`, with a rating drawn by `Next(0, 5)`. */
  method CreateCarrier(ctx: ShuttleContext, rng: Randomizer, n: nat) returns (carrierId: int)
    requires 1 <= n <= 8 && ctx.Valid() && ctx.created
    modifies ctx`carriers, ctx`nextCarrierId, rng
    ensures ctx.Valid()
    ensures carrierId == old(ctx.nextCarrierId) && ctx.nextCarrierId == carrierId + 1
    ensures |ctx.carriers| == old(|ctx.carriers|) + 1 && ctx.carriers[..old(|ctx.carriers|)] == old(ctx.carriers)
    ensures ctx.carriers[old(|ctx.carriers|)].carrierId == carrierId
    ensures SeededCarrier(ctx.carriers[old(|ctx.carriers|)], n)
  {
    var rating := rng.Next(0, 5);
    carrierId := ctx.AddCarrier(Carrier(0, CarrierNames()[n - 1], rating));
  }

  /** CreateEmployees: the five employees of `customerId`, added in one batch. */
  method CreateEmployees(ctx: ShuttleContext, customerId: int) returns (ghost es: seq<Employee>)
    requires ctx.Valid() && ctx.created
    modifies ctx`employees, ctx`nextEmployeeId
    ensures ctx.Valid()
    ensures ctx.employees == old(ctx.employees) + es && ctx.nextEmployeeId == old(ctx.nextEmployeeId) + 5
    ensures Staff(es, customerId)
  {
    var names := EmployeeNames();
    var batch := [Employee(0, customerId, names[0]), Employee(0, customerId, names[1]),
                  Employee(0, customerId, names[2]), Employee(0, customerId, names[3]),
                  Employee(0, customerId, names[4])];
    es := NumberEmployees(batch, ctx.nextEmployeeId);
    ctx.AddEmployees(batch);
  }

  /** CreateCustomer_01: the customer, then its employees under the key it was given. */
  method CreateCustomer(ctx: ShuttleContext) returns (ghost es: seq<Employee>)
    requires ctx.Valid() && ctx.created
    modifies ctx`customers, ctx`nextCustomerId, ctx`employees, ctx`nextEmployeeId
    ensures ctx.Valid()
    ensures ctx.customers == old(ctx.customers) + [Customer(old(ctx.nextCustomerId), CustomerName)]
    ensures ctx.nextCustomerId == old(ctx.nextCustomerId) + 1
    ensures ctx.employees == old(ctx.employees) + es && ctx.nextEmployeeId == old(ctx.nextEmployeeId) + 5
    ensures Staff(es, old(ctx.nextCustomerId))
  {
    var customerId := ctx.AddCustomer(Customer(0, CustomerName));
    es := CreateEmployees(ctx, customerId);
  }

  /** The driver half of pair `k`: its rating (literal or drawn) and its drawn ride count, saved under a new key. */
  method CreatePairDriver(ctx: ShuttleContext, rng: Randomizer, k: nat, carrierId: int) returns (driverId: int)
    requires 1 <= k <= 21 && ctx.Valid() && ctx.created
    modifies ctx`drivers, ctx`nextDriverId, rng
    ensures ctx.Valid()
    ensures driverId == old(ctx.nextDriverId) && ctx.nextDriverId == driverId + 1
    ensures |ctx.drivers| == old(|ctx.drivers|) + 1 && ctx.drivers[..old(|ctx.drivers|)] == old(ctx.drivers)
    ensures var d := ctx.drivers[old(|ctx.drivers|)];
      && d.driverId == driverId && d.name == Pairs()[k - 1].driverName && d.carrierId == carrierId
      && RatingFits(d.ratingTenths, Pairs()[k - 1].driverRating) && 50 <= d.totalRides < 100
  {
    var p := Pairs()[k - 1];
    var tenths: int;
    if p.driverRating.Fixed? {
      tenths := p.driverRating.tenths;
    } else {
      var r := rng.Next(0, p.driverRating.bound);
      tenths := 10 * r;
    }
    var rides := rng.Next(50, 100);
    driverId := ctx.AddDriver(Driver(0, p.driverName, carrierId, tenths, rides));
  }

  /** The vehicle half of pair `k`: its literals and three draws, pointing at driver `driverId`, saved under a new key. */
  method CreatePairVehicle(ctx: ShuttleContext, rng: Randomizer, k: nat, carrierId: int, driverId: int)
    requires 1 <= k <= 21 && ctx.Valid() && ctx.created
    modifies ctx`vehicles, ctx`nextVehicleId, rng
    ensures ctx.Valid()
    ensures ctx.nextVehicleId == old(ctx.nextVehicleId) + 1
    ensures |ctx.vehicles| == old(|ctx.vehicles|) + 1 && ctx.vehicles[..old(|ctx.vehicles|)] == old(ctx.vehicles)
    ensures var v, p := ctx.vehicles[old(|ctx.vehicles|)], Pairs()[k - 1];
      && v.vehicleId == old(ctx.nextVehicleId)
      && v.licensePlate == p.plate && v.vehicleType == p.vehicleType && v.seats == p.seats && v.status == p.status
      && v.driverId == driverId && v.carrierId == carrierId
      && 1 <= v.rate < 5 && 0 <= v.ratingAvg < 5 && 50 <= v.totalRides < 100
  {
    var p := Pairs()[k - 1];
    var rate := rng.Next(1, 5);
    var rating := rng.Next(0, 5);
    var rides := rng.Next(50, 100);
    var _ := ctx.AddVehicle(Vehicle(0, p.plate, p.vehicleType, p.seats, p.status, driverId, carrierId,
                                    rate, rating, rides));
  }

  /**
   * CreateVehicleAndDriver_01 .. CreateVehicleAndDriver_21: pair number `k`
   * under `carrierId`.  The driver is saved first, so the vehicle can point at
   * the key the driver was given.
   */
  method CreateVehicleAndDriver(ctx: ShuttleContext, rng: Randomizer, k: nat, carrierId: int)
    returns (ghost d: Driver, ghost v: Vehicle)
    requires 1 <= k <= 21 && ctx.Valid() && ctx.created
    modifies ctx`drivers, ctx`nextDriverId, ctx`vehicles, ctx`nextVehicleId, rng
    ensures ctx.Valid()
    ensures ctx.drivers == old(ctx.drivers) + [d] && ctx.nextDriverId == old(ctx.nextDriverId) + 1
    ensures ctx.vehicles == old(ctx.vehicles) + [v] && ctx.nextVehicleId == old(ctx.nextVehicleId) + 1
    ensures d.driverId == old(ctx.nextDriverId) && v.vehicleId == old(ctx.nextVehicleId)
    ensures SeededPair(d, v, k, carrierId)
  {
    var driverId := CreatePairDriver(ctx, rng, k, carrierId);
    d := ctx.drivers[|ctx.drivers| - 1];
    assert ctx.drivers == old(ctx.drivers) + [d];
    CreatePairVehicle(ctx, rng, k, carrierId, driverId);
    v := ctx.vehicles[|ctx.vehicles| - 1];
    assert ctx.vehicles == old(ctx.vehicles) + [v];
  }

  /** CreateDrivers: four drivers without a vehicle, both values drawn, added in one batch. */
  method CreateDrivers(ctx: ShuttleContext, rng: Randomizer, carrierId: int) returns (ghost ds: seq<Driver>)
    requires ctx.Valid() && ctx.created
    modifies ctx`drivers, ctx`nextDriverId, rng
    ensures ctx.Valid()
    ensures ctx.drivers == old(ctx.drivers) + ds && ctx.nextDriverId == old(ctx.nextDriverId) + 4
    ensures ExtraDrivers(ds, carrierId)
  {
    var names := ExtraDriverNames();
    var r1 := rng.Next(0, 5);
    var n1 := rng.Next(50, 100);
    var r2 := rng.Next(0, 5);
    var n2 := rng.Next(50, 100);
    var r3 := rng.Next(0, 5);
    var n3 := rng.Next(50, 100);
    var r4 := rng.Next(0, 5);
    var n4 := rng.Next(50, 100);
    var batch := [Driver(0, names[0], carrierId, 10 * r1, n1), Driver(0, names[1], carrierId, 10 * r2, n2),
                  Driver(0, names[2], carrierId, 10 * r3, n3), Driver(0, names[3], carrierId, 10 * r4, n4)];
    ds := NumberDrivers(batch, ctx.nextDriverId);
    ctx.AddDrivers(batch);
  }

  // ---------------------------------------------------------------------
  // Rides.

  /**
   * One ride of slot `slot` for vehicle `v`, starting `daysBack` days before
   * `now`: the distance is drawn, the identifier issued, an employee picked
   * by `Next(0, n - 1)` and the rating drawn, in that order.
   */
  method EmitRide(rng: Randomizer, guids: GuidGenerator, v: Vehicle, slot: nat, daysBack: int,
                  carrierId: int, now: int, emps: seq<int>) returns (r: Ride)
    requires 1 <= slot <= 6 && 1 <= |emps|
    requires Slots()[slot - 1].daysLo <= daysBack < Slots()[slot - 1].daysHi
    modifies rng, guids
    ensures SlotRide(r, v, slot, carrierId, now, emps)
    ensures r.id == Guid(old(guids.issued)) && guids.issued == old(guids.issued) + 1
  {
    var s := Slots()[slot - 1];
    var start := now - daysBack * MinutesPerDay;
    var distance := rng.Next(20, 40);
    var end := start + 3 * distance;
    var duration := if slot == 2 then 20 else distance * 3;
    var cost := distance * v.rate;
    var id := guids.NewGuid();
    var pick := rng.Next(0, |emps| - 1);
    var rating := rng.Next(s.ratingLo, 5);
    r := Ride(id, start, end, v.vehicleId, v.driverId, emps[pick], carrierId, distance, duration, cost, rating,
              s.comments, s.startAddress, s.endAddress);
    assert now - start == daysBack * MinutesPerDay;
    if |emps| >= 2 {
      assert emps[..|emps| - 1][pick] == emps[pick];
    }
  }

  /**
   * The body of CreateRides' loop for one vehicle: the six start days are
   * drawn first, then the six rides are made in slot order.
   */
  method CreateVehicleRides(rng: Randomizer, guids: GuidGenerator, v: Vehicle, carrierId: int, now: int,
                            emps: seq<int>) returns (block: seq<Ride>)
    requires 1 <= |emps|
    modifies rng, guids
    ensures VehicleRides(block, v, carrierId, now, emps)
    ensures guids.issued == old(guids.issued) + 6
    ensures forall j :: 0 <= j < 6 ==> block[j].id == Guid(old(guids.issued) + j)
  {
    var days1 := rng.Next(15, 30);
    var days2 := rng.Next(15, 30);
    var days3 := rng.Next(0, 15);
    var days4 := rng.Next(0, 15);
    var days5 := rng.Next(10, 20);
    var days6 := rng.Next(0, 10);
    var r1 := EmitRide(rng, guids, v, 1, days1, carrierId, now, emps);
    var r2 := EmitRide(rng, guids, v, 2, days2, carrierId, now, emps);
    var r3 := EmitRide(rng, guids, v, 3, days3, carrierId, now, emps);
    var r4 := EmitRide(rng, guids, v, 4, days4, carrierId, now, emps);
    var r5 := EmitRide(rng, guids, v, 5, days5, carrierId, now, emps);
    var r6 := EmitRide(rng, guids, v, 6, days6, carrierId, now, emps);
    block := [r1, r2, r3, r4, r5, r6];
  }

  /**
   * The loop of CreateRides: six rides for every vehicle of `vs`, in order,
   * charged to employees of `emps`.  Picking an employee from an empty list
   * throws, so with vehicles but no employees it stops (`ok` is false).
   */
  method GenerateRides(rng: Randomizer, guids: GuidGenerator, vs: seq<Vehicle>, carrierId: int, now: int,
                       emps: seq<int>)
    returns (ok: bool, batch: seq<Ride>)
    modifies rng, guids
    ensures ok <==> |vs| == 0 || |emps| > 0
    ensures ok ==> FleetRides(batch, vs, carrierId, now, emps)
    ensures ok ==> guids.issued == old(guids.issued) + |batch|
    ensures ok ==> forall j :: 0 <= j < |batch| ==> batch[j].id == Guid(old(guids.issued) + j)
  {
    batch := [];
    var i := 0;
    while i < |vs|
      invariant 0 <= i <= |vs|
      invariant FleetRides(batch, vs[..i], carrierId, now, emps)
      invariant guids.issued == old(guids.issued) + |batch|
      invariant forall j :: 0 <= j < |batch| ==> batch[j].id == Guid(old(guids.issued) + j)
      invariant i > 0 ==> |emps| > 0
    {
      if |emps| == 0 {
        return false, [];
      }
      var v := vs[i];
      var block := CreateVehicleRides(rng, guids, v, carrierId, now, emps);
      FleetRidesExtend(batch, vs[..i], block, v, carrierId, now, emps);
      assert vs[..i + 1] == vs[..i] + [v];
      batch := batch + block;
      i := i + 1;
    }
    assert vs[..i] == vs;
    ok := true;
  }

  /**
   * CreateRides: six rides for every vehicle in the store, booked under
   * `carrierId` and charged to the employees in the store, added in one
   * batch.  With vehicles but no employees the source throws, and nothing
   * is added (`ok` is false).
   */
  method CreateRides(ctx: ShuttleContext, rng: Randomizer, guids: GuidGenerator, carrierId: int, now: int)
    returns (ok: bool, ghost rs: seq<Ride>)
    requires ctx.Valid() && ctx.created
    modifies ctx`rides, rng, guids
    ensures ctx.Valid()
    ensures ok <==> |ctx.vehicles| == 0 || |ctx.employees| > 0
    ensures !ok ==> ctx.rides == old(ctx.rides)
    ensures ok ==> ctx.rides == old(ctx.rides) + rs
    ensures ok ==> FleetRides(rs, ctx.vehicles, carrierId, now, EmployeeIds(ctx.employees))
    ensures ok ==> guids.issued == old(guids.issued) + |rs|
    ensures ok ==> forall j :: 0 <= j < |rs| ==> rs[j].id == Guid(old(guids.issued) + j)
  {
    var emps := EmployeeIds(ctx.employees);
    var batch;
    ok, batch := GenerateRides(rng, guids, ctx.vehicles, carrierId, now, emps);
    if !ok {
      return false, [];
    }
    ctx.AddRides(batch);
    rs := batch;
  }

  // ---------------------------------------------------------------------
  // The whole seed.

  /** Pairs 01 .. 19, one after the other, under the default carrier. */
  method CreateDefaultFleet(ctx: ShuttleContext, rng: Randomizer)
    requires ctx.Valid() && ctx.created
    modifies ctx`drivers, ctx`nextDriverId, ctx`vehicles, ctx`nextVehicleId, rng
    ensures ctx.Valid()
    ensures FleetSoFar(ctx.drivers, ctx.vehicles, old(ctx.drivers), old(ctx.vehicles), 19, 0)
    ensures ctx.nextDriverId == old(ctx.nextDriverId) + 19 && ctx.nextVehicleId == old(ctx.nextVehicleId) + 19
  {
    ghost var dbase, vbase := ctx.drivers, ctx.vehicles;
    assert ctx.drivers[|dbase|..] == [] && ctx.vehicles[|vbase|..] == [];
    var k := 1;
    while k <= 19
      invariant 1 <= k <= 20 && ctx.Valid()
      invariant FleetSoFar(ctx.drivers, ctx.vehicles, dbase, vbase, k - 1, 0)
      invariant ctx.nextDriverId == old(ctx.nextDriverId) + k - 1 && ctx.nextVehicleId == old(ctx.nextVehicleId) + k - 1
    {
      ghost var ds, vs := ctx.drivers, ctx.vehicles;
      ghost var d, v := CreateVehicleAndDriver(ctx, rng, k, DefaultCarrierId);
      FleetSoFarExtend(ds, vs, dbase, vbase, d, v, k - 1, 0);
      k := k + 1;
    }
  }

  /** Carrier 02, then pairs 20 and 21 under it, completing the fleet begun on `dbase` and `vbase`. */
  method CreateSecondCarrierFleet(ctx: ShuttleContext, rng: Randomizer, ghost dbase: seq<Driver>, ghost vbase: seq<Vehicle>)
    returns (second: int)
    requires ctx.Valid() && ctx.created
    requires FleetSoFar(ctx.drivers, ctx.vehicles, dbase, vbase, 19, 0)
    modifies ctx`carriers, ctx`nextCarrierId, ctx`drivers, ctx`nextDriverId, ctx`vehicles, ctx`nextVehicleId, rng
    ensures ctx.Valid()
    ensures second == old(ctx.nextCarrierId) && ctx.nextCarrierId == second + 1
    ensures |ctx.carriers| == old(|ctx.carriers|) + 1 && ctx.carriers[..old(|ctx.carriers|)] == old(ctx.carriers)
    ensures ctx.carriers[old(|ctx.carriers|)].carrierId == second && SeededCarrier(ctx.carriers[old(|ctx.carriers|)], 2)
    ensures FleetSoFar(ctx.drivers, ctx.vehicles, dbase, vbase, 21, second)
    ensures ctx.nextDriverId == old(ctx.nextDriverId) + 2 && ctx.nextVehicleId == old(ctx.nextVehicleId) + 2
  {
    second := CreateCarrier(ctx, rng, 2);
    PairsBeforeSecondCarrier(ctx.drivers[|dbase|..], ctx.vehicles[|vbase|..], 19, 0, second);
    ghost var ds, vs := ctx.drivers, ctx.vehicles;
    ghost var d, v := CreateVehicleAndDriver(ctx, rng, 20, second);
    FleetSoFarExtend(ds, vs, dbase, vbase, d, v, 19, second);
    ds, vs := ctx.drivers, ctx.vehicles;
    d, v := CreateVehicleAndDriver(ctx, rng, 21, second);
    FleetSoFarExtend(ds, vs, dbase, vbase, d, v, 20, second);
  }

  /** Carriers 03 .. 08, one after the other. */
  method CreateOtherCarriers(ctx: ShuttleContext, rng: Randomizer) returns (ghost added: seq<Carrier>)
    requires ctx.Valid() && ctx.created
    modifies ctx`carriers, ctx`nextCarrierId, rng
    ensures ctx.Valid()
    ensures ctx.carriers == old(ctx.carriers) + added && ctx.nextCarrierId == old(ctx.nextCarrierId) + 6
    ensures |added| == 6 && forall i :: 0 <= i < 6 ==> SeededCarrier(added[i], i + 3)
  {
    added := [];
    var n := 3;
    while n <= 8
      invariant 3 <= n <= 9 && ctx.Valid()
      invariant |added| == n - 3 && forall i :: 0 <= i < |added| ==> SeededCarrier(added[i], i + 3)
      invariant ctx.carriers == old(ctx.carriers) + added && ctx.nextCarrierId == old(ctx.nextCarrierId) + n - 3
    {
      var _ := CreateCarrier(ctx, rng, n);
      added := added + [ctx.carriers[|ctx.carriers| - 1]];
      n := n + 1;
    }
  }

  /**
   * The carriers, vehicle pairs and drivers of CreateCarriers: pairs 01 .. 19,
   * carrier 02 with pairs 20 and 21, carriers 03 .. 08, and the extra drivers.
   */
  method CreateCarrierFleets(ctx: ShuttleContext, rng: Randomizer)
    returns (ghost others: seq<Carrier>, ghost pairDrivers: seq<Driver>, ghost fleet: seq<Vehicle>,
             ghost extra: seq<Driver>)
    requires ctx.Valid() && ctx.created
    modifies ctx`carriers, ctx`nextCarrierId, ctx`drivers, ctx`nextDriverId, ctx`vehicles, ctx`nextVehicleId, rng
    ensures ctx.Valid()
    ensures ctx.carriers == old(ctx.carriers) + others && OtherCarriers(others)
    ensures others[0].carrierId == old(ctx.nextCarrierId)
    ensures ctx.drivers == old(ctx.drivers) + pairDrivers + extra && ctx.vehicles == old(ctx.vehicles) + fleet
    ensures Fleet(pairDrivers, fleet, others[0].carrierId) && ExtraDrivers(extra, DefaultCarrierId)
    ensures ctx.nextCarrierId == old(ctx.nextCarrierId) + 7 && ctx.nextDriverId == old(ctx.nextDriverId) + 25
    ensures ctx.nextVehicleId == old(ctx.nextVehicleId) + 21
  {
    ghost var dbase, vbase := ctx.drivers, ctx.vehicles;
    CreateDefaultFleet(ctx, rng);
    var second := CreateSecondCarrierFleet(ctx, rng, dbase, vbase);
    pairDrivers, fleet := ctx.drivers[|dbase|..], ctx.vehicles[|vbase|..];
    assert ctx.drivers == dbase + pairDrivers && ctx.vehicles == vbase + fleet;
    ghost var rest := CreateOtherCarriers(ctx, rng);
    others := [ctx.carriers[old(|ctx.carriers|)]] + rest;
    assert ctx.carriers == old(ctx.carriers) + others;
    extra := CreateDrivers(ctx, rng, DefaultCarrierId);
  }

  /**
   * CreateCarriers: the customer and its employees, the carriers, vehicle
   * pairs and extra drivers, and the rides of every vehicle in the store.  The ghost results name the rows appended to each table.
   */
  method CreateCarriers(ctx: ShuttleContext, rng: Randomizer, guids: GuidGenerator, now: int)
    returns (ghost staff: seq<Employee>, ghost others: seq<Carrier>, ghost pairDrivers: seq<Driver>,
             ghost fleet: seq<Vehicle>, ghost extra: seq<Driver>, ghost rides: seq<Ride>)
    requires ctx.Valid() && ctx.created
    modifies ctx`customers, ctx`nextCustomerId, ctx`employees, ctx`nextEmployeeId, ctx`carriers, ctx`nextCarrierId
    modifies ctx`drivers, ctx`nextDriverId, ctx`vehicles, ctx`nextVehicleId, ctx`rides, rng, guids
    ensures ctx.Valid()
    ensures ctx.customers == old(ctx.customers) + [Customer(old(ctx.nextCustomerId), CustomerName)]
    ensures ctx.employees == old(ctx.employees) + staff && Staff(staff, old(ctx.nextCustomerId))
    ensures ctx.carriers == old(ctx.carriers) + others && OtherCarriers(others)
    ensures others[0].carrierId == old(ctx.nextCarrierId)
    ensures ctx.drivers == old(ctx.drivers) + pairDrivers + extra
    ensures ctx.vehicles == old(ctx.vehicles) + fleet
    ensures Fleet(pairDrivers, fleet, others[0].carrierId) && ExtraDrivers(extra, DefaultCarrierId)
    ensures ctx.nextCustomerId == old(ctx.nextCustomerId) + 1 && ctx.nextEmployeeId == old(ctx.nextEmployeeId) + 5
    ensures ctx.nextCarrierId == old(ctx.nextCarrierId) + 7 && ctx.nextDriverId == old(ctx.nextDriverId) + 25
    ensures ctx.nextVehicleId == old(ctx.nextVehicleId) + 21
    ensures ctx.rides == old(ctx.rides) + rides
    ensures FleetRides(rides, ctx.vehicles, DefaultCarrierId, now, EmployeeIds(ctx.employees))
    ensures forall j :: 0 <= j < |rides| ==> rides[j].id == Guid(old(guids.issued) + j)
  {
    staff := CreateCustomer(ctx);
    others, pairDrivers, fleet, extra := CreateCarrierFleets(ctx, rng);
    var ok;
    ok, rides := CreateRides(ctx, rng, guids, DefaultCarrierId, now);
  }

  /**
   * CreateSampleData: carrier 01 (its key is discarded), the default
   * account, then everything CreateCarriers adds.  On an empty store the
   * result is a fresh seed.
   */
  method CreateSampleData(ctx: ShuttleContext, users: UserManager, rng: Randomizer, guids: GuidGenerator,
                          config: map<string, string>, now: int)
    requires ctx.Valid() && ctx.created
    modifies ctx, users, rng, guids
    ensures ctx.Valid() && ctx.created
    ensures old(ctx.Empty()) ==> FreshSeed(ctx.Contents(), now)
    ensures UserSeeded(old(users.users), users.users, Login(config), Password(config))
  {
    ghost var empty := ctx.Empty();
    var _ := CreateCarrier(ctx, rng, 1);
    ghost var before := ctx.Contents();
    CreateDefaultUser(users, config);
    ghost var g0 := guids.issued;
    ghost var staff, others, pairDrivers, fleet, extra, rides := CreateCarriers(ctx, rng, guids, now);
    if empty {
      FreshSeedOf(before, ctx.Contents(), now, staff, others, pairDrivers, fleet, extra, rides, g0);
    }
  }

  /**
   * InitializeDatabaseAsync: creates the schema if it does not exist and,
   * only then, seeds it.  A database that already existed is left as it was,
   * and so is the identity store.
   */
  method InitializeDatabase(ctx: ShuttleContext, users: UserManager, rng: Randomizer, guids: GuidGenerator,
                            config: map<string, string>, now: int) returns (databaseCreated: bool)
    requires ctx.Valid()
    modifies ctx, users, rng, guids
    ensures ctx.Valid() && ctx.created
    ensures databaseCreated == !old(ctx.created)
    ensures !databaseCreated ==> ctx.Contents() == old(ctx.Contents()) && users.users == old(users.users)
    ensures !databaseCreated ==> unchanged(ctx) && unchanged(users) && unchanged(rng) && unchanged(guids)
    ensures databaseCreated ==> FreshSeed(ctx.Contents(), now)
    ensures databaseCreated ==> UserSeeded(old(users.users), users.users, Login(config), Password(config))
  {
    databaseCreated := ctx.EnsureCreated();
    if databaseCreated {
      CreateSampleData(ctx, users, rng, guids, config, now);
    }
  }

  /**
   * Starting the application twice against a new database: the first start
   * creates and seeds it, the second finds it and adds nothing, so there are
   * still eight carriers and 126 rides.
   */
  method StartTwice(config: map<string, string>, seed: nat, now: int)
    returns (first: bool, second: bool, carriers: nat, rides: nat)
    ensures first && !second && carriers == 8 && rides == 126
  {
    var ctx := new ShuttleContext();
    var users := new UserManager(map[]);
    var rng := new Randomizer(seed);
    var guids := new GuidGenerator();
    first := InitializeDatabase(ctx, users, rng, guids, config, now);
    SeedSizes(ctx.Contents(), now);
    second := InitializeDatabase(ctx, users, rng, guids, config, now);
    carriers, rides := |ctx.carriers|, |ctx.rides|;
  }
}
