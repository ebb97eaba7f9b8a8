/**
 * Points in time as the tracker sees them. A `Timestamp` stands for a naive
 * Python `datetime`: the calendar day as its proleptic Gregorian ordinal
 * (0001-01-01 is day 1, as `date.toordinal()` numbers it) and the time of day
 * in microseconds since midnight, the resolution `datetime` keeps.
 */
module Clock {

  /** Microseconds in one day. */
  const MicrosPerDay: int := 86_400_000_000

  type TimeOfDay = t: int | 0 <= t < MicrosPerDay

  datatype Timestamp = Timestamp(day: int, time: TimeOfDay)

  /** `datetime.weekday()`: Monday is 0 and Sunday is 6; day 1 is a Monday. */
  function Weekday(day: int): (w: int)
    ensures 0 <= w < 7
    ensures w == 0 <==> (day - 1) % 7 == 0
  {
    (day + 6) % 7
  }

  /** The Monday of the Monday-to-Sunday week that holds `day`. */
  function MondayOf(day: int): (m: int)
    ensures m <= day <= m + 6
    ensures Weekday(m) == 0
  {
    day - Weekday(day)
  }

  /** `t + timedelta(days=n)`: the calendar day moves, the time of day stays. */
  function AddDays(t: Timestamp, n: int): Timestamp
  {
    Timestamp(t.day + n, t.time)
  }

  /** `datetime.fromisoformat(str(t)[:10])`: the date part alone, at midnight. */
  function Midnight(t: Timestamp): Timestamp
  {
    Timestamp(t.day, 0)
  }

  /** `a <= b` on naive datetimes: by day, then by time of day. */
  predicate AtMost(a: Timestamp, b: Timestamp)
  {
    a.day < b.day || (a.day == b.day && a.time <= b.time)
  }

  /** A day belongs to exactly one Monday-to-Sunday week: any Monday within the six days before it is its Monday. */
  lemma MondayUnique(m: int, day: int)
    requires Weekday(m) == 0
    requires m <= day <= m + 6
    ensures MondayOf(day) == m
  {
  }

  /** Two days share a week exactly when the later one is at most six days past the Monday of the earlier. */
  lemma SameWeekIff(a: int, b: int)
    ensures MondayOf(a) == MondayOf(b) <==> MondayOf(a) <= b <= MondayOf(a) + 6
  {
  }
}
