/**
 * The records the seeding routine writes.  Only the fields that carry counts,
 * keys, foreign keys, numbers and bounds are kept, plus the literal names that
 * identify each seeded row.  Pictures, coordinates, phone numbers and postal
 * addresses of carriers and customers are not modelled.
 */
module Entities {

  datatype Customer = Customer(customerId: int, name: string)

  datatype Employee = Employee(employeeId: int, customerId: int, name: string)

  /** `ratingAvg` is the whole-number rating the seed draws for a carrier. */
  datatype Carrier = Carrier(carrierId: int, name: string, ratingAvg: int)

  /**
   * The driver's average rating is a floating-point number in the source
   * (4.5, 4.6, ...); every value the seed writes is a whole number of tenths,
   * so it is kept here in tenths (4.5 becomes 45).
   */
  datatype Driver = Driver(driverId: int, name: string, carrierId: int, ratingTenths: int, totalRides: int)

  datatype VehicleType = Compact | Van | Luxury

  datatype VehicleStatus = Free | Occupied

  datatype Vehicle = Vehicle(
    vehicleId: int,
    licensePlate: string,
    vehicleType: VehicleType,
    seats: int,
    status: VehicleStatus,
    driverId: int,
    carrierId: int,
    rate: int,
    ratingAvg: int,
    totalRides: int)

  /** A globally unique identifier: only its identity matters, so it is a serial number. */
  datatype Guid = Guid(serial: nat)

  /** Times are whole minutes on one clock; `start` and `end` are instants on it. */
  datatype Ride = Ride(
    id: Guid,
    start: int,
    end: int,
    vehicleId: int,
    driverId: int,
    employeeId: int,
    carrierId: int,
    distance: int,
    duration: int,
    cost: int,
    rating: int,
    comments: string,
    startAddress: string,
    endAddress: string)

  datatype Claim = Claim(claimType: string, value: string)

  /** An identity account; `password` stands for the credential it was created with. */
  datatype ApplicationUser = ApplicationUser(
    userName: string,
    carrierId: int,
    emailConfirmed: bool,
    email: string,
    password: string,
    claims: seq<Claim>)
}
