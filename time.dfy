/** Local calendar time as the core uses Go's `time` package: an instant is a
    count of seconds, a date is a count of days, every day has 86400 seconds. */
module Time {

  /** Seconds since 1970-01-01 00:00 local time. */
  type Instant = int

  /** Days since 1970-01-01, which was a Thursday. */
  type Date = int

  /** `time.Weekday`: Sunday is 0, Saturday is 6. */
  newtype Weekday = x: int | 0 <= x < 7

  const Sunday: Weekday := 0
  const Monday: Weekday := 1
  const Tuesday: Weekday := 2
  const Wednesday: Weekday := 3
  const Thursday: Weekday := 4
  const Friday: Weekday := 5
  const Saturday: Weekday := 6

  /** Go's zero `time.Time` (January 1, year 1, 00:00:00). */
  const ZeroTime: Instant := -62135596800

  /** The calendar date an instant falls on (the `"2006-01-02"` part of its format). */
  function DateOf(t: Instant): Date
  {
    t / 86400
  }

  /** 00:00 at the start of a date. */
  function Midnight(d: Date): Instant
  {
    d * 86400
  }

  predicate IsMidnight(t: Instant)
  {
    t % 86400 == 0
  }

  /** `t.AddDate(0, 0, n)`. */
  function AddDays(t: Instant, n: int): Instant
  {
    t + n * 86400
  }

  function WeekdayOf(d: Date): Weekday
  {
    ((d + 4) % 7) as Weekday
  }

  /** `time.Weekday.String()`. */
  const WeekdayNames: seq<string> :=
    ["Sunday", "Monday", "Tuesday", "Wednesday", "Thursday", "Friday", "Saturday"]

  function WeekdayName(w: Weekday): string
  {
    WeekdayNames[w as int]
  }

  lemma MidnightIsStartOfDate(d: Date)
    ensures DateOf(Midnight(d)) == d && IsMidnight(Midnight(d))
  {
  }

  lemma DateOfBounds(t: Instant)
    ensures Midnight(DateOf(t)) <= t < Midnight(DateOf(t)) + 86400
  {
  }

  lemma WeekdayNamesDistinct(v: Weekday, w: Weekday)
    ensures WeekdayName(v) == WeekdayName(w) <==> v == w
  {
  }
}
