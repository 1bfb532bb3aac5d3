/** Whole-day date arithmetic of the tracker.

    A date is a day number: the count of days since 1970-01-01.  The host
    parses a date-only ISO string (`YYYY-MM-DD`) as UTC midnight, so the
    timestamp of day `d` is `d * MillisPerDay` milliseconds and the
    difference of two such timestamps is always a whole number of days. */
module Days {

  type Day = int

  /** `1000 * 60 * 60 * 24`, the divisor used by both day computations. */
  const MillisPerDay: int := 1000 * 60 * 60 * 24

  /** The timestamp (milliseconds since the epoch) of a day's UTC midnight. */
  function Millis(d: Day): int {
    d * MillisPerDay
  }

  /** `Math.ceil(a / b)` for a positive divisor: the least `r` with `a <= b * r`. */
  function CeilDiv(a: int, b: int): (r: int)
    requires b > 0
    ensures b * (r - 1) < a <= b * r
  {
    var q := a / b;
    assert a == b * q + a % b;
    if a % b == 0 then q else q + 1
  }

  /** `calculateCycleLength`: the days from `start` to `end`, both included. */
  function CycleLength(start: Day, end: Day): (r: int)
    ensures r == end - start + 1
  {
    CeilDiv(Millis(end) - Millis(start), MillisPerDay) + 1
  }

  /** `calculateDaysBetweenCycles`: the days strictly between the end of one
      cycle and the start of the next. */
  function DaysBetween(prevEnd: Day, nextStart: Day): (r: int)
    ensures r == nextStart - prevEnd - 1
  {
    CeilDiv(Millis(nextStart) - Millis(prevEnd), MillisPerDay) - 1
  }

  /** A cycle lasts at least one day exactly when it does not end before it
      starts, and a cycle that ends the day it starts lasts one day. */
  lemma LengthAtLeastOneDay(start: Day, end: Day)
    ensures CycleLength(start, end) >= 1 <==> start <= end
    ensures CycleLength(start, end) == 1 <==> start == end
  {
  }

  /** A cycle from January 1 to January 5 lasts 5 days, and when the next one
      starts on January 10 there are 4 days in between (January 6 to 9). */
  lemma JanuaryExample(jan1: Day)
    ensures CycleLength(jan1, jan1 + 4) == 5
    ensures DaysBetween(jan1 + 4, jan1 + 9) == 4
  {
  }

  /** The gap before a cycle plus the cycle's length is the number of days
      from the end of the previous cycle to the end of this one. */
  lemma GapPlusLength(prevEnd: Day, start: Day, end: Day)
    ensures DaysBetween(prevEnd, start) + CycleLength(start, end) == end - prevEnd
  {
  }
}
