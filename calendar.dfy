/** Calendar days and instants. A day is an integer index of a local calendar
    day; an instant is a count of milliseconds on the same local time line,
    day `d` spanning [d * MsPerDay, (d + 1) * MsPerDay). */
module Calendar {

  type Day = int
  type Instant = int

  const MsPerDay: int := 86_400_000

  function StartOfDay(d: Day): Instant
  {
    d * MsPerDay
  }

  /** `endOf('day')`: the last millisecond (23:59:59.999) of day `d`. */
  function EndOfDay(d: Day): (t: Instant)
    ensures StartOfDay(d) <= t < StartOfDay(d + 1)
    ensures t + 1 == StartOfDay(d + 1)
  {
    StartOfDay(d) + MsPerDay - 1
  }

  /** The calendar day that contains instant `t`. */
  function DayOf(t: Instant): (d: Day)
    ensures StartOfDay(d) <= t < StartOfDay(d + 1)
  {
    t / MsPerDay
  }

  /** A date is past when its end of day lies strictly before now. */
  predicate IsPastDate(d: Day, now: Instant) {
    EndOfDay(d) < now
  }

  /** With days as integers, a date is past exactly when it comes before the
      day that contains now. */
  lemma PastIffBeforeToday(d: Day, now: Instant)
    ensures IsPastDate(d, now) <==> d < DayOf(now)
  {
  }
}
