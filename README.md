# MyShuttle demo-database seeding, modelled in Dafny

MyShuttle is a sample shuttle-booking application. On start-up,
`MyShuttleDataInitializer.InitializeDatabaseAsync` asks Entity Framework
to create the database. Only when that call actually creates it does the
initializer seed it with a fixed demo data set:

- one customer ("Microsoft") with five employees;
- eight carriers;
- 21 vehicles, each with the driver saved just before it;
- four extra drivers;
- six rides per vehicle, with randomised dates, distances and ratings;
- one default manager account in ASP.NET Identity.

This project models that routine with the same entities and the same call
order. It proves what the seeded database contains: every row, the
identity keys of customers, employees, carriers, drivers and vehicles, the
ride arithmetic and the bounds of every random draw.

Modules:

- `Entities`: the rows (Customer, Employee, Carrier, Driver, Vehicle, Ride,
  ApplicationUser) as datatypes.
- `Externals`: the two nondeterministic services the routine calls,
  `Random.Next` (class `Randomizer`) and `Guid.NewGuid` (class
  `GuidGenerator`). A draw is specified only by the range .NET documents for
  `Random.Next`: `[lo, hi)`, exactly `lo` when `lo == hi`. A Guid is idealised
  as a serial number that is never issued twice; .NET itself makes no such
  promise, and collisions are simply assumed away.
- `Store`: the database context (`ShuttleContext`). Its tables are `seq`
  fields, and each table has an identity counter, as EF's store-generated
  keys do. `Add…` assigns the next key and the `SaveChanges` that follows is
  folded into it. `Valid()` says every table's keys lie in `[1, next)` and
  strictly increase, and that a database not yet created is empty.
  `UserManager` is the Identity user store, a map from user name to account.
- `Recipe`: the literal demo data (names, plates, vehicle kinds, seat
  counts, the fixed or drawn driver ratings, the carrier assignment) and
  predicates saying that a row is the one the routine writes.
- `RideSpec`: the six ride slots per vehicle (day window, distance, the
  minutes-per-km factor, the rating window), the predicate a generated ride
  satisfies, and lemmas about ride timing and about which employees can be
  picked.
- `SeedSpec`: `FreshSeed`, the whole database after seeding, and lemmas
  about it (table sizes, dense keys, ownership, rides per vehicle,
  referential integrity, ranges).
- `Initializer`: the routine itself, as methods over the context, the user
  store and the two generators.

Time is measured in minutes, and `now` is one fixed instant, passed in.
Driver ratings such as 4.5 are kept in tenths (45).

### Structure versus the source

The source calls `CreateVehicleAndDriver_01` … `_19` and
`CreateCarrier_03` … `_08` one after another in straight-line code. The
model writes each of these runs as a loop over the pair or carrier
number. The loop makes the same calls, in the same order, with the same
draws. Each numbered C# routine becomes one parameterised method, which
reads its literals from `Recipe.Pairs()` or `Recipe.CarrierNames()`:

- `Initializer.CreateVehicleAndDriver(k)` for pair `k`;
- `Initializer.CreateCarrier(n)` for carrier `n`.

`CreateVehicleAndDriver` is split into `CreatePairDriver` and
`CreatePairVehicle`, and the per-vehicle body of `CreateRides` is
`CreateVehicleRides` / `EmitRide`. The parts of `CreateCarriers` are:

- `CreateDefaultFleet`: pairs 1–19;
- `CreateSecondCarrierFleet`: carrier 2 and pairs 20–21;
- `CreateOtherCarriers`: carriers 3–8;
- `CreateCarrierFleets`: all of the above, then `CreateDrivers`.

These are grouping only and add no behaviour.

### Quirks of the code that the model keeps

- `Random.Next(lo, hi)` excludes `hi`. So ride ratings are 3–4 in slots 1–2
  and 2–4 in slots 3–6, ride distances are 20–39, vehicle rates 1–4, and
  ride counts 50–99.
- The second ride slot records `Duration = 20`, not the distance-derived
  minutes its end time uses (`RideSpec.DurationMatchesTimes`).
- Every ride gets `CarrierId = 1`, including the rides of the two vehicles
  that belong to carrier 2 (`SeedSpec.SeedRideCarrierMatchesVehicle`).
- The employee is picked with `Next(0, count - 1)`. With two or more
  employees, the last one in the list is never picked. With the list in
  insertion order, the demo data's fifth employee never has a ride
  (`SeedSpec.SeedLastEmployeeIdle`).
- Slots 3, 4 and 6 may start on the current day, so their rides can end
  after "now" (`RideSpec.SameDayRideEndsLater`). Slots 1, 2 and 5 always end
  in the past (`RideSpec.EndsBeforeNow`).

## Model

| member | source | states |
|---|---|---|
| Externals.Scale | MyShuttle.Data/Infrastructure/MyShuttleDataInitializer.cs:15 | the stand-in generator's value lies in `[lo, hi)`, or is `lo` when the range is empty, as `Random.Next` promises |
| Externals.Randomizer.Next | MyShuttle.Data/Infrastructure/MyShuttleDataInitializer.cs:15 | every draw of the shared `Random` lies in `[lo, hi)` (exactly `lo` when `lo == hi`) |
| Externals.GuidGenerator.NewGuid | MyShuttle.Data/Infrastructure/MyShuttleDataInitializer.cs:1237 | each call returns a Guid distinct from all earlier ones (the next serial) |
| Store.KeysAtLeastPosition | MyShuttle.Data/Infrastructure/MyShuttleDataInitializer.cs:128-129 | the i-th stored key is at least i + 1 |
| Store.DenseKeys | MyShuttle.Data/Infrastructure/MyShuttleDataInitializer.cs:128-129 | a table holding exactly `next - 1` rows has the keys 1, 2, …, in order |
| Store.EmptyIsKeyed | MyShuttle.Data/Infrastructure/MyShuttleDataInitializer.cs:24 | a freshly created database satisfies the key invariant, with every counter at 1 |
| Store.ShuttleContext.constructor | MyShuttleContextTests.cs:13-15 | a new context over a database that does not exist yet is valid and not created |
| Store.ShuttleContext.Existing | MyShuttle.Data/Infrastructure/MyShuttleDataInitializer.cs:21 | a context over an existing database holds exactly that database's tables, with the given next identity key for each table |
| Store.ShuttleContext.EnsureCreated | MyShuttle.Data/Infrastructure/MyShuttleDataInitializer.cs:24 | returns true exactly when the database did not exist; it is then created empty; otherwise nothing changes |
| Store.ShuttleContext.AddCustomer | MyShuttle.Data/Infrastructure/MyShuttleDataInitializer.cs:128-129 | appends the customer under the next identity key, returns that key, keeps the key invariant |
| Store.ShuttleContext.AddEmployees | MyShuttle.Data/Infrastructure/MyShuttleDataInitializer.cs:186-187 | appends the employees, numbered consecutively from the next key, keeps the key invariant |
| Store.ShuttleContext.AddCarrier | MyShuttle.Data/Infrastructure/MyShuttleDataInitializer.cs:208-209 | appends the carrier under the next identity key, returns that key, keeps the key invariant |
| Store.ShuttleContext.AddDriver | MyShuttle.Data/Infrastructure/MyShuttleDataInitializer.cs:445-446 | appends the driver under the next identity key, returns that key, keeps the key invariant |
| Store.ShuttleContext.AddDrivers | MyShuttle.Data/Infrastructure/MyShuttleDataInitializer.cs:429-430 | appends the drivers, numbered consecutively from the next key, keeps the key invariant |
| Store.ShuttleContext.AddVehicle | MyShuttle.Data/Infrastructure/MyShuttleDataInitializer.cs:467-468 | appends the vehicle under the next identity key, returns that key, keeps the key invariant |
| Store.ShuttleContext.AddRides | MyShuttle.Data/Infrastructure/MyShuttleDataInitializer.cs:1404-1405 | appends the generated rides, in order, changes no other table, and keeps the key invariant |
| Store.UserManager.constructor | MyShuttle.Data/Infrastructure/MyShuttleDataInitializer.cs:46 | the Identity store holds the given accounts |
| Store.UserManager.FindByName | MyShuttle.Data/Infrastructure/MyShuttleDataInitializer.cs:55 | finds an account exactly when one with that user name exists, and returns it |
| Store.UserManager.Create | MyShuttle.Data/Infrastructure/MyShuttleDataInitializer.cs:67 | stores the account under its user name with the given password |
| Store.UserManager.AddClaim | MyShuttle.Data/Infrastructure/MyShuttleDataInitializer.cs:68 | appends the claim to that account and changes nothing else |
| Recipe.PairsExtend | MyShuttle.Data/Infrastructure/MyShuttleDataInitializer.cs:77-100 | saving pair n + 1 after pairs 1..n gives pairs 1..n+1 |
| Recipe.FleetSoFarExtend | MyShuttle.Data/Infrastructure/MyShuttleDataInitializer.cs:77-100 | the same, for the driver and vehicle tables grown from a base |
| Recipe.PairsBeforeSecondCarrier | MyShuttle.Data/Infrastructure/MyShuttleDataInitializer.cs:77-98 | pairs 1–19 go to the default carrier, so they do not depend on which key carrier 2 later gets |
| Recipe.PairRatingsBounded | MyShuttle.Data/Infrastructure/MyShuttleDataInitializer.cs:434-446 | every pair driver's rating, fixed or drawn, is between 0 and 5.0 |
| RideSpec.EndsAfterStart | MyShuttle.Data/Infrastructure/MyShuttleDataInitializer.cs:1230-1400 | every generated ride ends after it starts |
| RideSpec.DurationMatchesTimes | MyShuttle.Data/Infrastructure/MyShuttleDataInitializer.cs:1260-1287 | the recorded duration equals end minus start in every slot except slot 2, which records 20 |
| RideSpec.EndsBeforeNow | MyShuttle.Data/Infrastructure/MyShuttleDataInitializer.cs:1223-1227 | rides of slots 1, 2 and 5 (drawn at least 10 days back) end before now |
| RideSpec.SameDayRideEndsLater | MyShuttle.Data/Infrastructure/MyShuttleDataInitializer.cs:1225-1228 | slots 3, 4 and 6 can start today, and such a ride ends after now |
| RideSpec.LastEmployeeNeverPickable | MyShuttle.Data/Infrastructure/MyShuttleDataInitializer.cs:1244 | with two or more distinct employees, `Next(0, count - 1)` never picks the last one |
| RideSpec.OthersPickable | MyShuttle.Data/Infrastructure/MyShuttleDataInitializer.cs:1244 | every employee but the last can be picked |
| RideSpec.FleetRidesExtend | MyShuttle.Data/Infrastructure/MyShuttleDataInitializer.cs:1221-1402 | the per-vehicle loop adds one six-ride block per vehicle, in vehicle order |
| RideSpec.FleetRidesLength | MyShuttle.Data/Infrastructure/MyShuttleDataInitializer.cs:1221-1402 | there are exactly six rides per vehicle |
| RideSpec.FleetRideAt | MyShuttle.Data/Infrastructure/MyShuttleDataInitializer.cs:1221-1402 | ride j is slot j % 6 + 1 of vehicle j / 6 |
| RideSpec.RidesOfVehicleAppend | MyShuttle.Data/Infrastructure/MyShuttleDataInitializer.cs:1404 | counting a vehicle's rides distributes over concatenation |
| RideSpec.RidesOfEmployeeAppend | MyShuttle.Data/Infrastructure/MyShuttleDataInitializer.cs:1404 | counting an employee's rides distributes over concatenation |
| RideSpec.UniformRidesOfVehicle | MyShuttle.Data/Infrastructure/MyShuttleDataInitializer.cs:1235-1240 | a block whose rides all carry one vehicle key counts all of them for that key and none for any other |
| RideSpec.VehicleRidesCount | MyShuttle.Data/Infrastructure/MyShuttleDataInitializer.cs:1221-1402 | one vehicle's block holds six rides of that vehicle and none of any other |
| RideSpec.RidesPerVehicle | MyShuttle.Data/Infrastructure/MyShuttleDataInitializer.cs:1221-1402 | with distinct vehicle keys, every vehicle has exactly six rides and any other key none |
| RideSpec.NoRidesOfEmployee | MyShuttle.Data/Infrastructure/MyShuttleDataInitializer.cs:1244 | an employee never picked has no rides |
| RideSpec.LastEmployeeRidesNone | MyShuttle.Data/Infrastructure/MyShuttleDataInitializer.cs:1213-1244 | the last employee of the list has no rides at all |
| SeedSpec.FreshRowsOf | MyShuttle.Data/Infrastructure/MyShuttleDataInitializer.cs:32-111 | the rows written by the seeding steps, in order, are the demo data set |
| SeedSpec.FreshKeysOf | MyShuttle.Data/Infrastructure/MyShuttleDataInitializer.cs:32-111 | after seeding an empty database, every table is numbered 1, 2, … |
| SeedSpec.FreshRidesOf | MyShuttle.Data/Infrastructure/MyShuttleDataInitializer.cs:1211-1406 | the rides are the fleet's ride blocks, with pairwise distinct Guids |
| SeedSpec.FreshSeedOf | MyShuttle.Data/Infrastructure/MyShuttleDataInitializer.cs:32-37 | carrier 1 followed by everything `CreateCarriers` writes into an otherwise empty database is exactly the fresh seed |
| SeedSpec.NumberedIsDistinct | MyShuttle.Data/Infrastructure/MyShuttleDataInitializer.cs:128-129 | keys numbered 1, 2, … are pairwise distinct |
| SeedSpec.SeedSizes | MyShuttle.Data/Infrastructure/MyShuttleDataInitializer.cs:73-111 | the seed has 1 customer, 5 employees, 8 carriers, 25 drivers, 21 vehicles, 126 rides; the default carrier is key 1 and the second carrier key 2 |
| SeedSpec.SeedVehicleOwners | MyShuttle.Data/Infrastructure/MyShuttleDataInitializer.cs:434-468 | vehicle k is driven by driver k (key k + 1, saved just before it), and belongs to carrier 1 exactly for the first 19 vehicles |
| SeedSpec.SeedRidesPerVehicle | MyShuttle.Data/Infrastructure/MyShuttleDataInitializer.cs:1221-1402 | vehicles 1–21 have six rides each; no other key has any |
| SeedSpec.SeedLastEmployeeIdle | MyShuttle.Data/Infrastructure/MyShuttleDataInitializer.cs:1244 | the fifth employee ("Scott Guthrie") has no rides; every ride's employee is one of the first four |
| SeedSpec.SeedRideCarrierMatchesVehicle | MyShuttle.Data/Infrastructure/MyShuttleDataInitializer.cs:1246 | a ride's carrier equals its vehicle's carrier exactly for the rides of the first 19 vehicles |
| SeedSpec.SeedReferencesResolve | MyShuttle.Data/Infrastructure/MyShuttleDataInitializer.cs:73-111 | every foreign key in the seed (employee→customer, driver→carrier, vehicle→driver/carrier, ride→vehicle/driver/employee/carrier) names an existing row |
| SeedSpec.SeedRatingsInRange | MyShuttle.Data/Infrastructure/MyShuttleDataInitializer.cs:205 | carrier and vehicle averages are 0–4, vehicle rates 1–4, ride counts 50–99, driver ratings 0–5.0, ride ratings 2–4 |
| Initializer.SettingNeverEmpty | MyShuttle.Data/Infrastructure/MyShuttleDataInitializer.cs:48-53 | the login and password used are never empty |
| Initializer.CreateDefaultUser | MyShuttle.Data/Infrastructure/MyShuttleDataInitializer.cs:44-70 | an existing account of that name is left untouched; otherwise exactly one account is added: carrier 1, confirmed e-mail `<login>@myshuttle.biz`, the password, claim ManageStore = Allowed |
| Initializer.CreateCarrier | MyShuttle.Data/Infrastructure/MyShuttleDataInitializer.cs:190-385 | appends carrier n with its literal data and a rating in [0, 4], and returns its new key |
| Initializer.CreateEmployees | MyShuttle.Data/Infrastructure/MyShuttleDataInitializer.cs:134-188 | appends the five named employees, in order, all working for the given customer |
| Initializer.CreateCustomer | MyShuttle.Data/Infrastructure/MyShuttleDataInitializer.cs:113-132 | appends customer "Microsoft" under the next key, then its five employees pointing at that key |
| Initializer.CreatePairDriver | MyShuttle.Data/Infrastructure/MyShuttleDataInitializer.cs:436-446 | appends pair k's driver with its literal or drawn rating and a ride count in [50, 99], and returns its key |
| Initializer.CreatePairVehicle | MyShuttle.Data/Infrastructure/MyShuttleDataInitializer.cs:448-468 | appends pair k's vehicle for the given driver and carrier, with rate, rating and ride count drawn in range |
| Initializer.CreateVehicleAndDriver | MyShuttle.Data/Infrastructure/MyShuttleDataInitializer.cs:434-1209 | appends one driver and one vehicle, the vehicle pointing at the driver saved just before it, both for the given carrier, with pair k's data |
| Initializer.CreateDrivers | MyShuttle.Data/Infrastructure/MyShuttleDataInitializer.cs:387-432 | appends the four extra drivers of the given carrier, with drawn ratings and ride counts |
| Initializer.EmitRide | MyShuttle.Data/Infrastructure/MyShuttleDataInitializer.cs:1230-1400 | one ride of the given slot: its day window, its distance, end = start + 3 × distance, cost = distance × rate, a pickable employee, rating window, fresh Guid |
| Initializer.CreateVehicleRides | MyShuttle.Data/Infrastructure/MyShuttleDataInitializer.cs:1223-1402 | the six rides of one vehicle, in slot order, with consecutive fresh Guids |
| Initializer.GenerateRides | MyShuttle.Data/Infrastructure/MyShuttleDataInitializer.cs:1221-1402 | stops (the source throws) exactly when there are vehicles but no employees; otherwise six rides per vehicle, in vehicle order, with consecutive fresh Guids |
| Initializer.CreateRides | MyShuttle.Data/Infrastructure/MyShuttleDataInitializer.cs:1211-1406 | fails (the source throws) exactly when there are vehicles but no employees, leaving rides unchanged; otherwise appends six rides per vehicle, in vehicle order, all with the given carrier |
| Initializer.CreateDefaultFleet | MyShuttle.Data/Infrastructure/MyShuttleDataInitializer.cs:77-96 | appends pairs 1–19, all for carrier 1 |
| Initializer.CreateSecondCarrierFleet | MyShuttle.Data/Infrastructure/MyShuttleDataInitializer.cs:98-100 | appends carrier 2, then pairs 20–21 for the key it received |
| Initializer.CreateOtherCarriers | MyShuttle.Data/Infrastructure/MyShuttleDataInitializer.cs:102-107 | appends carriers 3–8, in order |
| Initializer.CreateCarrierFleets | MyShuttle.Data/Infrastructure/MyShuttleDataInitializer.cs:77-109 | appends the 21 pairs, carriers 2–8 and the four extra drivers of carrier 1 |
| Initializer.CreateCarriers | MyShuttle.Data/Infrastructure/MyShuttleDataInitializer.cs:73-111 | appends the customer and staff, carriers 2–8, the fleet, the extra drivers and the fleet's rides for carrier 1, with every counter advanced by the number of rows |
| Initializer.CreateSampleData | MyShuttle.Data/Infrastructure/MyShuttleDataInitializer.cs:32-37 | on an empty database the result is exactly the fresh seed, and the default account is seeded |
| Initializer.InitializeDatabase | MyShuttle.Data/Infrastructure/MyShuttleDataInitializer.cs:19-30 | seeds exactly when EnsureCreated reports a new database; for an existing database nothing changes: not its tables, not its key counters, not the user store, and no random draw or Guid is taken |
| Initializer.StartTwice | MyShuttle.Data/Infrastructure/MyShuttleDataInitializer.cs:19-30 | on a new database the first start creates and seeds it (8 carriers, 126 rides); a second start creates nothing and adds nothing |

## Left out

- Entity Framework itself is not part of this model: change tracking, the provider, and transactions. It is reduced to tables with identity counters. `SaveChanges` is folded into each `Add`.
- Query order is not modelled. Two queries without an `ORDER BY` are read as returning rows in insertion order: `context.Vehicles` (MyShuttleDataInitializer.cs:1221) and `context.Employees.Select(e => e.EmployeeId)` (MyShuttleDataInitializer.cs:1213). The order of the employee list decides which employee the pick `Next(0, count - 1)` can never reach. So the claim that this employee is the fifth one, "Scott Guthrie" (`SeedSpec.SeedLastEmployeeIdle`), holds only under that reading. `RideSpec.LastEmployeeRidesNone` holds whatever the list order is.
- The asynchronous execution and the service provider are left out. The context and user store are passed in directly.
- Initializer.CreateDefaultUser: the configuration is an exact-match `map<string, string>`. .NET's `IConfiguration` looks keys up case-insensitively, and hierarchically across providers; neither is modelled. For example, a setting stored under `defaultusername` makes the source use that login, but the model falls back to "carrier".
- Store.UserManager.FindByName: the lookup matches the user name exactly. Identity's `FindByNameAsync` looks up the normalised (by default upper-cased) name, so an existing "CARRIER" account would stop the source from creating "carrier", while the model would add it. Name normalisation is not modelled.
- ASP.NET Identity's password hashing, user validation and a `CreateAsync` that fails are left out. `Store.UserManager.Create` always succeeds, and the password is stored as given.
- Latitudes and longitudes of vehicles and rides are not modelled at all. The fractional driver ratings are kept in tenths (4.5 as 45) rather than as floating point.
- Pictures are left out: the byte arrays from the fake-image helpers at MyShuttleDataInitializer.cs:1408-1431. So are:
  - the phone numbers, addresses, e-mail addresses and descriptions of the customer, carriers, drivers and employees;
  - the customer's `CompanyID`;
  - each employee's string `Id`;
  - each vehicle's `Make`, `Model` and `DeviceId`;
  - the ride's `Signature`.

  The rides' start and end addresses are kept.
- The `Max` locals at MyShuttleDataInitializer.cs:136-140 and the `rideId` at 1217-1219 are left out: they are computed and never used.
- Rides have a store-generated integer key, `RideId`, read at MyShuttleDataInitializer.cs:1219. The model does not have it: a ride is identified only by its Guid, and no key property is proved for the ride table.
- The Guid's string form is not modelled. A Guid is an opaque serial that is never repeated.
- `DateTime.UtcNow` is read afresh for each date in the source. The model uses one `now`, so clock drift during seeding is not modelled.
- Externals.Randomizer.Next: the .NET generator's algorithm is not modelled. A stand-in linear-congruential step is used, and every proof relies only on the range contract.
- Initializer.CreateRides: with vehicles but no employees, the source makes the first vehicle's date and distance draws and then throws at the employee pick. The model reports failure (`ok == false`) before those draws and with the rides table unchanged. It does not model the exception's propagation out of `InitializeDatabaseAsync`, or the draws made before the throw.
- The repositories and interfaces (`EmployeeRepository`, `ICarrierRepository`, `IEmployeeRepository`) and the rest of the application are not part of this model.
- The test `Database_DeletedSuccessfully` is not modelled, because deleting the database is not part of the seeding routine.
