/**
 * Stand-ins for the nondeterministic services the seeding routine calls:
 * the shared pseudo-random generator, `Guid.NewGuid` and the clock.
 * Nothing proved about the seed depends on how a value is produced, only on
 * the range each service promises.
 */
module Externals {
  import opened Entities

  /** `DateTime.AddDays` on a clock counted in minutes. */
  const MinutesPerDay := 1440

  /**
   * The range promise of `Random.Next(lo, hi)`: the upper bound is exclusive,
   * and when the two bounds are equal the lower one is returned.
   */
  predicate InRange(r: int, lo: int, hi: int) {
    if lo == hi then r == lo else lo <= r < hi
  }

  /** One step of a linear congruential generator on 31-bit states. */
  function Step(state: nat): nat {
    (state * 1103515245 + 12345) % 0x8000_0000
  }

  /** Maps a generator state into `[lo, hi)`, or to `lo` when the range is a single point. */
  function Scale(state: nat, lo: int, hi: int): (r: int)
    requires lo <= hi
    ensures InRange(r, lo, hi)
  {
    if lo == hi then lo else lo + state % (hi - lo)
  }

  /** The one generator the whole seeding run draws from. */
  class Randomizer {
    var state: nat

    constructor (seed: nat)
      ensures state == seed
    {
      state := seed;
    }

    /** `Next(lo, hi)`; the source's generator throws when `lo > hi`, which callers rule out. */
    method Next(lo: int, hi: int) returns (r: int)
      requires lo <= hi
      modifies this
      ensures InRange(r, lo, hi)
    {
      state := Step(state);
      r := Scale(state, lo, hi);
    }
  }

  /** `Guid.NewGuid`, idealised as a serial number that is never issued twice. */
  class GuidGenerator {
    var issued: nat

    constructor ()
      ensures issued == 0
    {
      issued := 0;
    }

    method NewGuid() returns (g: Guid)
      modifies this
      ensures g == Guid(old(issued)) && issued == old(issued) + 1
    {
      g := Guid(issued);
      issued := issued + 1;
    }
  }
}
