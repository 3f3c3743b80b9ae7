/**
 * Points in time as the pages use them: `getFullYear`, `getMonth` (0 = January) and the
 * order `<` on `Date` objects. Parsing and time zones are outside the model; a date is
 * given by its local calendar fields.
 */
module Dates {

  /** Year, month 0..11 (as `getMonth` numbers them), day of month and milliseconds into the day. */
  datatype Date = Date(year: int, month: int, day: int, ms: int)

  /** A date whose fields lie in their calendar ranges. */
  predicate Valid(d: Date) {
    0 <= d.month < 12 && 1 <= d.day <= 31 && 0 <= d.ms < 86400000
  }

  /** `a < b` on `Date` objects: earlier in time. */
  predicate Before(a: Date, b: Date) {
    a.year < b.year
    || (a.year == b.year && a.month < b.month)
    || (a.year == b.year && a.month == b.month && a.day < b.day)
    || (a.year == b.year && a.month == b.month && a.day == b.day && a.ms < b.ms)
  }

  /** `a <= b` on `Date` objects. */
  predicate NotAfter(a: Date, b: Date) {
    !Before(b, a)
  }

  /** The sign of `new Date(a) - new Date(b)`, which is all a sort comparator uses. */
  function Compare(a: Date, b: Date): (r: int)
    ensures r < 0 <==> Before(a, b)
    ensures r > 0 <==> Before(b, a)
    ensures r == 0 <==> a == b
  {
    if Before(a, b) then -1 else if Before(b, a) then 1 else 0
  }

  /** `Before` is a strict total order. */
  lemma BeforeIsStrictTotalOrder(a: Date, b: Date, c: Date)
    ensures !Before(a, a)
    ensures Before(a, b) && Before(b, c) ==> Before(a, c)
    ensures a == b || Before(a, b) || Before(b, a)
  {
  }

  /** Same calendar day, ignoring the time of day. */
  predicate SameDay(a: Date, b: Date) {
    a.year == b.year && a.month == b.month && a.day == b.day
  }

  /** `a` falls on a calendar day no later than `b`'s (the comparison a date-only range bound makes). */
  predicate DayNotAfter(a: Date, b: Date) {
    NotAfter(a.(ms := 0), b.(ms := 0))
  }
}
