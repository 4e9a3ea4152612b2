/**
 * Instants and calendar days, standing in for the JavaScript `Date` values
 * the sync scripts pass around.  The sheet's time zone is taken to be UTC
 * with no daylight-saving shifts, so a calendar day is exactly `DAY`
 * milliseconds long.
 */
module Dates {

  /** Milliseconds since the Unix epoch, as `Date.prototype.valueOf()` gives. */
  type Instant = int

  /** One calendar day in milliseconds. */
  const DAY: int := 86_400_000

  /** The calendar day an instant falls on, counted in days since the epoch. */
  function DayOf(t: Instant): int
  {
    t / DAY
  }

  /** `a.toDateString() === b.toDateString()`: both instants fall on one calendar day. */
  predicate SameDay(a: Instant, b: Instant)
  {
    DayOf(a) == DayOf(b)
  }

  /** Every instant lies inside the day `DayOf` assigns it. */
  lemma DayBounds(t: Instant)
    ensures DayOf(t) * DAY <= t < DayOf(t) * DAY + DAY
  {
  }

  /** An instant lies on day `d` exactly when it is within that day's bounds. */
  lemma DayOfUnique(t: Instant, d: int)
    ensures DayOf(t) == d <==> d * DAY <= t < d * DAY + DAY
  {
    DayBounds(t);
  }

  /** Later instants never fall on earlier days. */
  lemma DayOfMonotone(a: Instant, b: Instant)
    requires a <= b
    ensures DayOf(a) <= DayOf(b)
  {
    DayBounds(a);
    DayBounds(b);
  }

  /** Moving an instant by `k` whole days moves its calendar day by `k`. */
  lemma DayOfShift(t: Instant, k: int)
    ensures DayOf(t + k * DAY) == DayOf(t) + k
  {
    DayBounds(t);
    DayOfUnique(t + k * DAY, DayOf(t) + k);
  }
}
