/**
 * The fixed sample-data recipe: the literal rows the seeding routine writes
 * and the bounds of every random draw it makes, as specification predicates
 * on single rows.
 */
module Recipe {
  import opened Entities

  /** The carrier key the routine hard-codes for the default account, 19 vehicle pairs, the extra drivers and every ride. */
  const DefaultCarrierId := 1

  const DefaultLogin := "carrier"
  const DefaultPassword := "P@ssw0rd"
  const EmailDomain := "@myshuttle.biz"
  const ManageStore := Claim("ManageStore", "Allowed")

  const CustomerName := "Microsoft"

  function EmployeeNames(): seq<string> {
    ["Scott Hanselman", "Mitra Azizirad", "Amanda Silver", "Nicole Herskowitz", "Scott Guthrie"]
  }

  /** Names of the carriers made by CreateCarrier_01 .. CreateCarrier_08, in that order. */
  function CarrierNames(): seq<string> {
    ["James&McCarthy", "Robert Cars", "Light red cabs", "S&W Shuttles",
     "Smith Cabs", "United Drivers&Vehicles", "Emblem", "Threeangle"]
  }

  /** Names of the four drivers CreateDrivers adds without a vehicle. */
  function ExtraDriverNames(): seq<string> {
    ["Carlos Zimmermann", "Andrew Davis", "Carolina Anderson", "Julian Thomas"]
  }

  /**
   * A driver's rating is either a literal (in tenths) or `Next(0, bound)`,
   * a whole number below `bound`.
   */
  datatype DriverRating = Fixed(tenths: int) | Drawn(bound: int)

  /** The literal part of one CreateVehicleAndDriver_NN routine. */
  datatype PairSpec = PairSpec(
    driverName: string,
    driverRating: DriverRating,
    plate: string,
    vehicleType: VehicleType,
    seats: int,
    status: VehicleStatus)

  /** CreateVehicleAndDriver_01 .. CreateVehicleAndDriver_21, in that order. */
  function Pairs(): seq<PairSpec> {
    [
    PairSpec("Cesar de la Torre", Fixed(45), "SLV-4335", Compact, 4, Occupied),
    PairSpec("David Carmona", Fixed(46), "MAX-9876", Van, 7, Free),
    PairSpec("David Salgado", Fixed(30), "ZCC-1432", Van, 7, Occupied),
    PairSpec("Dmitry Lyalin", Drawn(4), "JNV-9876", Van, 7, Occupied),
    PairSpec("Scott Hanselman", Fixed(48), "FGH-9876", Van, 7, Free),
    PairSpec("Erich Gamma", Drawn(3), "ZUA-1456", Van, 7, Free),
    PairSpec("Mitra Azizirad", Fixed(46), "JOP-9876", Van, 7, Occupied),
    PairSpec("Rob Caron", Drawn(3), "HTY-1243", Van, 7, Occupied),
    PairSpec("S. Somasegar", Drawn(3), "VVV-4444", Van, 7, Free),
    PairSpec("Scott Guthrie", Fixed(50), "ERT-1256", Van, 7, Occupied),
    PairSpec("James Rodriguez", Fixed(20), "WWW-1256", Luxury, 7, Occupied),
    PairSpec("Rose Anderson", Fixed(20), "ZVC-1256", Luxury, 7, Occupied),
    PairSpec("Aaron McDonall", Fixed(20), "HUL-5678", Luxury, 7, Occupied),
    PairSpec("Alan Anderson", Fixed(20), "WTW-6182", Luxury, 7, Occupied),
    PairSpec("Austin Lumbert", Fixed(20), "OUJ-6182", Luxury, 7, Occupied),
    PairSpec("Wendy Torre", Fixed(20), "ERT-1289", Luxury, 7, Occupied),
    PairSpec("Ray J. Poland", Fixed(20), "RTY-2345", Luxury, 7, Occupied),
    PairSpec("Ibon Campa", Fixed(20), "RTY-2345", Luxury, 7, Occupied),
    PairSpec("Carlos Rodriguez", Fixed(20), "ERT-2345", Luxury, 7, Occupied),
    PairSpec("Alec Watson", Fixed(20), "TRT-9473", Luxury, 7, Occupied),
    PairSpec("Andry Jackson", Fixed(20), "WIE-4545", Luxury, 7, Occupied)
    ]
  }

  /** The carrier a pair is created under: the first 19 under the default key, the last two under the second carrier. */
  function PairCarrier(k: nat, secondCarrierId: int): int {
    if k <= 19 then DefaultCarrierId else secondCarrierId
  }

  predicate RatingFits(tenths: int, r: DriverRating) {
    match r
    case Fixed(t) => tenths == t
    case Drawn(b) => tenths % 10 == 0 && 0 <= tenths < 10 * b
  }

  /** Carrier number `n` of the recipe: its name, and a rating drawn by `Next(0, 5)`. */
  predicate SeededCarrier(c: Carrier, n: nat)
    requires 1 <= n <= 8
  {
    c.name == CarrierNames()[n - 1] && 0 <= c.ratingAvg < 5
  }

  /** Employee number `n` of the recipe, working for the customer `customerId`. */
  predicate SeededEmployee(e: Employee, n: nat, customerId: int)
    requires 1 <= n <= 5
  {
    e.name == EmployeeNames()[n - 1] && e.customerId == customerId
  }

  /**
   * Pair number `k` of the recipe under `carrierId`: the driver's literal
   * fields and drawn ride count, the vehicle's literal fields, its three draws
   * (`Rate` by `Next(1, 5)`, `RatingAvg` by `Next(0, 5)`, `TotalRides` by
   * `Next(50, 100)`), and the vehicle pointing at that driver and carrier.
   */
  predicate SeededPair(d: Driver, v: Vehicle, k: nat, carrierId: int)
    requires 1 <= k <= 21
  {
    var p := Pairs()[k - 1];
    && d.name == p.driverName
    && d.carrierId == carrierId
    && RatingFits(d.ratingTenths, p.driverRating)
    && 50 <= d.totalRides < 100
    && v.licensePlate == p.plate
    && v.vehicleType == p.vehicleType
    && v.seats == p.seats
    && v.status == p.status
    && v.driverId == d.driverId
    && v.carrierId == carrierId
    && 1 <= v.rate < 5
    && 0 <= v.ratingAvg < 5
    && 50 <= v.totalRides < 100
  }

  /** Extra driver number `n` of CreateDrivers, with both values drawn. */
  predicate SeededExtraDriver(d: Driver, n: nat, carrierId: int)
    requires 1 <= n <= 4
  {
    && d.name == ExtraDriverNames()[n - 1]
    && d.carrierId == carrierId
    && RatingFits(d.ratingTenths, Drawn(5))
    && 50 <= d.totalRides < 100
  }

  /** The five employees of CreateEmployees, in order, all working for `customerId`. */
  predicate Staff(es: seq<Employee>, customerId: int) {
    |es| == 5 && forall i :: 0 <= i < 5 ==> SeededEmployee(es[i], i + 1, customerId)
  }

  /** The carriers of CreateCarrier_02 .. CreateCarrier_08, in order. */
  predicate OtherCarriers(cs: seq<Carrier>) {
    |cs| == 7 && forall i :: 0 <= i < 7 ==> SeededCarrier(cs[i], i + 2)
  }

  /** The first `n` vehicle pairs, the last two of which go to `secondCarrierId`. */
  predicate PairsUpTo(ds: seq<Driver>, vs: seq<Vehicle>, n: nat, secondCarrierId: int) {
    && n <= 21 && |ds| == n && |vs| == n
    && forall i :: 0 <= i < n ==> SeededPair(ds[i], vs[i], i + 1, PairCarrier(i + 1, secondCarrierId))
  }

  /** All 21 vehicle pairs. */
  predicate Fleet(ds: seq<Driver>, vs: seq<Vehicle>, secondCarrierId: int) {
    PairsUpTo(ds, vs, 21, secondCarrierId)
  }

  /** The four drivers of CreateDrivers, in order. */
  predicate ExtraDrivers(ds: seq<Driver>, carrierId: int) {
    |ds| == 4 && forall i :: 0 <= i < 4 ==> SeededExtraDriver(ds[i], i + 1, carrierId)
  }

  lemma PairsExtend(ds: seq<Driver>, vs: seq<Vehicle>, d: Driver, v: Vehicle, n: nat, secondCarrierId: int)
    requires n < 21 && PairsUpTo(ds, vs, n, secondCarrierId)
    requires SeededPair(d, v, n + 1, PairCarrier(n + 1, secondCarrierId))
    ensures PairsUpTo(ds + [d], vs + [v], n + 1, secondCarrierId)
  {
  }

  /** Tables holding `dbase` and `vbase` followed by the first `n` pairs. */
  predicate FleetSoFar(ds: seq<Driver>, vs: seq<Vehicle>, dbase: seq<Driver>, vbase: seq<Vehicle>,
                       n: nat, secondCarrierId: int)
  {
    && |ds| == |dbase| + n && |vs| == |vbase| + n
    && ds[..|dbase|] == dbase && vs[..|vbase|] == vbase
    && PairsUpTo(ds[|dbase|..], vs[|vbase|..], n, secondCarrierId)
  }

  lemma FleetSoFarExtend(ds: seq<Driver>, vs: seq<Vehicle>, dbase: seq<Driver>, vbase: seq<Vehicle>,
                          d: Driver, v: Vehicle, n: nat, secondCarrierId: int)
    requires n < 21 && FleetSoFar(ds, vs, dbase, vbase, n, secondCarrierId)
    requires SeededPair(d, v, n + 1, PairCarrier(n + 1, secondCarrierId))
    ensures FleetSoFar(ds + [d], vs + [v], dbase, vbase, n + 1, secondCarrierId)
  {
    PairsExtend(ds[|dbase|..], vs[|vbase|..], d, v, n, secondCarrierId);
    assert (ds + [d])[|dbase|..] == ds[|dbase|..] + [d];
    assert (vs + [v])[|vbase|..] == vs[|vbase|..] + [v];
    assert (ds + [d])[..|dbase|] == ds[..|dbase|];
    assert (vs + [v])[..|vbase|] == vs[..|vbase|];
  }

  /** Pairs 1 .. 19 do not depend on the second carrier. */
  lemma PairsBeforeSecondCarrier(ds: seq<Driver>, vs: seq<Vehicle>, n: nat, a: int, b: int)
    requires n <= 19 && PairsUpTo(ds, vs, n, a)
    ensures PairsUpTo(ds, vs, n, b)
  {
  }

  /** The account CreateDefaultUser makes for `login`. */
  predicate DefaultAccount(u: ApplicationUser, login: string, password: string) {
    && u.userName == login
    && u.carrierId == DefaultCarrierId
    && u.emailConfirmed
    && u.email == login + EmailDomain
    && u.password == password
    && u.claims == [ManageStore]
  }

  /** Every driver rating the recipe can write lies in [0, 5], in tenths. */
  lemma PairRatingsBounded(k: nat, tenths: int)
    requires 1 <= k <= 21 && RatingFits(tenths, Pairs()[k - 1].driverRating)
    ensures 0 <= tenths <= 50
  {
    var p := Pairs()[k - 1];
    assert p.driverRating in multiset{Fixed(45), Fixed(46), Fixed(30), Drawn(4), Fixed(48), Drawn(3), Fixed(50), Fixed(20)} by {
      assert p == Pairs()[k - 1];
    }
  }
}
