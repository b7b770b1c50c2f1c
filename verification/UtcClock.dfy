/**
  Instants are whole nanoseconds since 1970-01-01T00:00Z, as Go's `time.Time` counts
  them in UTC; a day is the floor of that count over 24 hours.
*/
module UtcClock {

  const SECOND: int := 1_000_000_000
  const MINUTE: int := 60_000_000_000
  const DAY: int := 86_400_000_000_000

  /** `t.UTC().Truncate(24 * time.Hour)`, as a day number. */
  function DayOf(t: int): (d: int)
    ensures d * DAY <= t < (d + 1) * DAY
  {
    t / DAY
  }

  /** Sunday = 0; day 0 (1970-01-01) was a Thursday. */
  function Weekday(d: int): (w: int)
    ensures 0 <= w < 7
  {
    (d + 4) % 7
  }

  /** The day holding an instant is the only one whose bounds enclose it. */
  lemma DayOfUnique(t: int, d: int)
    requires d * DAY <= t < (d + 1) * DAY
    ensures DayOf(t) == d
  {
    var e := DayOf(t);
    assert e * DAY < (d + 1) * DAY && d * DAY < (e + 1) * DAY;
  }

  lemma DayOfMonotone(t: int, u: int)
    requires t <= u
    ensures DayOf(t) <= DayOf(u)
  {
    var d, e := DayOf(t), DayOf(u);
    assert d * DAY < (e + 1) * DAY;
  }

  /** Midnights and whole minutes-of-day fall on any grid that divides an hour. */
  lemma MidnightOnHalfHour(d: int)
    ensures (d * DAY) % (30 * MINUTE) == 0
  {
    assert d * DAY == (d * 48) * 1_800_000_000_000;
    assert 30 * MINUTE == 1_800_000_000_000;
  }
}
