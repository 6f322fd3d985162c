/** The charge formula used both when a booking is stored
    (backend/controllers/bookingController.js) and in the booking form's preview
    (frontend/src/components/BookingModal.js): the duration in milliseconds is
    rounded up to whole hours, `Math.ceil(ms / (1000 * 60 * 60))`, and multiplied by
    the hourly rate. Times are integer milliseconds and rates are integers. */
module Pricing {

  const MsPerHour: int := 1000 * 60 * 60

  /** `Math.ceil(durationMs / MsPerHour)`. Dafny's division rounds toward negative
      infinity for a positive divisor, so the ceiling is the negated floor of the
      negated duration. */
  function CeilHours(durationMs: int): (hours: int)
    ensures (hours - 1) * MsPerHour < durationMs <= hours * MsPerHour
  {
    -((-durationMs) / MsPerHour)
  }

  /** The ceiling is the only whole number of hours with that bracketing property. */
  lemma CeilHoursUnique(durationMs: int, hours: int)
    requires (hours - 1) * MsPerHour < durationMs <= hours * MsPerHour
    ensures CeilHours(durationMs) == hours
  {
  }

  /** A duration that is not positive bills a non-positive number of hours; any
      positive duration bills at least one hour. */
  lemma CeilHoursSign(durationMs: int)
    ensures CeilHours(durationMs) <= 0 <==> durationMs <= 0
    ensures durationMs > 0 ==> CeilHours(durationMs) >= 1
  {
  }

  /** A longer stay never bills fewer hours. */
  lemma CeilHoursMonotone(d1: int, d2: int)
    requires d1 <= d2
    ensures CeilHours(d1) <= CeilHours(d2)
  {
  }

  /** What a stay from `startMs` to `endMs` costs at `rate` per hour. */
  function Charge(startMs: int, endMs: int, rate: int): int
  {
    CeilHours(endMs - startMs) * rate
  }

  /** Worked examples: 90 minutes at 50 cost two hours, 100; one hour at 50 costs 50;
      10:00 to 12:30 at 50 costs three hours, 150; an empty interval costs nothing. */
  lemma ChargeExamples(t0: int)
    ensures Charge(t0, t0 + 90 * 60 * 1000, 50) == 100
    ensures Charge(t0, t0 + 60 * 60 * 1000, 50) == 50
    ensures CeilHours(150 * 60 * 1000) == 3 && Charge(t0, t0 + 150 * 60 * 1000, 50) == 150
    ensures Charge(t0, t0, 50) == 0
  {
    CeilHoursUnique(90 * 60 * 1000, 2);
    CeilHoursUnique(60 * 60 * 1000, 1);
    CeilHoursUnique(150 * 60 * 1000, 3);
    CeilHoursUnique(0, 0);
  }
}
