/**
  Projecting the recurring weekly spans onto concrete UTC days
  (backend/internal/bookings/bookings.go), and what the weekly set means.
*/
module Projection {
  import opened UtcClock
  import opened Intervals

  /** Minutes from 00:00 UTC on a UTC weekday, end exclusive. */
  datatype AvailabilitySpan = AvailabilitySpan(weekday: int, startMinute: int, endMinute: int)

  /** The row checks of table teacher_availability_slots. */
  predicate ValidSpan(sp: AvailabilitySpan) {
    && 0 <= sp.weekday <= 6
    && 0 <= sp.startMinute < sp.endMinute <= 1440
    && sp.startMinute % 15 == 0 && sp.endMinute % 15 == 0
  }

  predicate ValidSpans(spans: seq<AvailabilitySpan>) {
    forall k :: 0 <= k < |spans| ==> ValidSpan(spans[k])
  }

  /** The weekly meaning: the instant's own UTC weekday and minute lie in the span. */
  ghost predicate SpanHas(sp: AvailabilitySpan, t: int) {
    && Weekday(DayOf(t)) == sp.weekday
    && sp.startMinute * MINUTE <= t - DayOf(t) * DAY < sp.endMinute * MINUTE
  }

  ghost function WeeklyOpen(spans: seq<AvailabilitySpan>): iset<int> {
    iset t, k {:trigger SpanHas(spans[k], t)} | 0 <= k < |spans| && SpanHas(spans[k], t) :: t
  }

  /** The same, counted out: week `n` begins at midnight of day 3 + 7n; day 3, 1970-01-04, was a Sunday. */
  ghost predicate InWeek(sp: AvailabilitySpan, n: int, t: int) {
    var midnight := (3 + 7 * n + sp.weekday) * DAY;
    midnight + sp.startMinute * MINUTE <= t < midnight + sp.endMinute * MINUTE
  }

  /** In some week, some span holds the instant. */
  ghost predicate OpenAt(spans: seq<AvailabilitySpan>, t: int) {
    exists k, n :: 0 <= k < |spans| && InWeek(spans[k], n, t)
  }

  lemma SpanInSomeWeek(sp: AvailabilitySpan, t: int)
    requires ValidSpan(sp)
    ensures SpanHas(sp, t) <==> exists n :: InWeek(sp, n, t)
  {
    if SpanHas(sp, t) {
      var n := (DayOf(t) - 3 - sp.weekday) / 7;
      assert 3 + 7 * n + sp.weekday == DayOf(t);
      assert InWeek(sp, n, t);
    }
    if n :| InWeek(sp, n, t) {
      var d := 3 + 7 * n + sp.weekday;
      assert 0 <= sp.startMinute * MINUTE && sp.endMinute * MINUTE <= 1440 * MINUTE == DAY;
      DayOfUnique(t, d);
      assert Weekday(d) == sp.weekday;
    }
  }

  /** The weekly meaning without naming a weekday: a span recurs every seven days, counted from a Sunday. */
  lemma WeeklyOpenCountedOut(spans: seq<AvailabilitySpan>)
    requires ValidSpans(spans)
    ensures forall t :: t in WeeklyOpen(spans) <==> OpenAt(spans, t)
  {
    forall t ensures t in WeeklyOpen(spans) <==> OpenAt(spans, t) {
      if t in WeeklyOpen(spans) {
        var k :| 0 <= k < |spans| && SpanHas(spans[k], t);
        SpanInSomeWeek(spans[k], t);
      }
      if OpenAt(spans, t) {
        var k, n :| 0 <= k < |spans| && InWeek(spans[k], n, t);
        SpanInSomeWeek(spans[k], t);
      }
    }
  }

  /** First and one-past-last instant of the padded days a query looks at. */
  function PadLo(from: int): int { (DayOf(from) - 1) * DAY }
  function PadHi(to: int): int { (DayOf(to) + 2) * DAY }

  ghost predicate Between(lo: int, t: int, hi: int) {
    lo <= t < hi
  }

  ghost function Range(lo: int, hi: int): iset<int> {
    iset t | Between(lo, t, hi)
  }

  ghost function Days(lo: int, hi: int): iset<int> {
    Range(lo * DAY, hi * DAY)
  }

  function OnDay(sp: AvailabilitySpan, d: int): Interval {
    Interval(d * DAY + sp.startMinute * MINUTE, d * DAY + sp.endMinute * MINUTE)
  }

  lemma OnDayMeaning(sp: AvailabilitySpan, d: int, t: int)
    requires ValidSpan(sp) && Weekday(d) == sp.weekday
    ensures Has(OnDay(sp, d), t) <==> DayOf(t) == d && SpanHas(sp, t)
  {
    if Has(OnDay(sp, d), t) {
      assert 0 <= sp.startMinute * MINUTE;
      assert sp.endMinute * MINUTE <= 1440 * MINUTE == DAY;
      DayOfUnique(t, d);
    }
  }

  /** Adding one more span to what day `d` already shows. */
  lemma DayStep(spans: seq<AvailabilitySpan>, k: nat, d: int)
    requires k < |spans| && ValidSpan(spans[k])
    ensures WeeklyOpen(spans[..k + 1]) * Days(d, d + 1)
         == WeeklyOpen(spans[..k]) * Days(d, d + 1)
          + (if spans[k].weekday == Weekday(d) then Points([OnDay(spans[k], d)]) else iset{})
  {
    var sp := spans[k];
    PointsOne(OnDay(sp, d));
    forall t
      ensures t in WeeklyOpen(spans[..k + 1]) * Days(d, d + 1)
           <==> (t in WeeklyOpen(spans[..k]) * Days(d, d + 1)
                 || (sp.weekday == Weekday(d) && Has(OnDay(sp, d), t)))
    {
      if t in Days(d, d + 1) { DayOfUnique(t, d); }
      if sp.weekday == Weekday(d) { OnDayMeaning(sp, d, t); }
      assert forall j :: 0 <= j < k ==> spans[..k + 1][j] == spans[..k][j];
      assert spans[..k + 1][k] == sp;
      if t in WeeklyOpen(spans[..k]) {
        var j :| 0 <= j < k && SpanHas(spans[..k][j], t);
        assert SpanHas(spans[..k + 1][j], t);
      }
      if t in WeeklyOpen(spans[..k + 1]) {
        var j :| 0 <= j < k + 1 && SpanHas(spans[..k + 1][j], t);
        if j < k { assert SpanHas(spans[..k][j], t); }
      }
      if SpanHas(sp, t) { assert SpanHas(spans[..k + 1][k], t); }
    }
  }

  /**
    `projectSpans`: for every day from one before `from` to one after `to`, every
    span of that weekday.  What comes out covers exactly the weekly meaning
    restricted to those days.
  */
  method ProjectSpans(spans: seq<AvailabilitySpan>, from: int, to: int) returns (out: seq<Interval>)
    requires ValidSpans(spans)
    ensures AllNonEmpty(out)
    ensures Points(out) == WeeklyOpen(spans) * Range(PadLo(from), PadHi(to))
    ensures forall t :: t in Points(out) <==>
              OpenAt(spans, t) && (DayOf(from) - 1) * DAY <= t < (DayOf(to) + 2) * DAY
  {
    out := [];
    if |spans| == 0 {
      OpenInRange(spans, PadLo(from), PadHi(to));
      return;
    }
    var day0 := DayOf(from) - 1;
    var dayN := DayOf(to) + 1;
    var d := day0;
    while d <= dayN
      invariant day0 <= d
      invariant d == day0 || d <= dayN + 1
      invariant AllNonEmpty(out)
      invariant Points(out) == WeeklyOpen(spans) * Days(day0, d)
      decreases dayN - d
    {
      var wd := Weekday(d);
      ghost var before := Points(out);
      assert spans[..0] == [];
      for k := 0 to |spans|
        invariant AllNonEmpty(out)
        invariant Points(out) == before + WeeklyOpen(spans[..k]) * Days(d, d + 1)
      {
        DayStep(spans, k, d);
        var s := spans[k];
        if s.weekday != wd {
          continue;
        }
        PointsSplit(out, [OnDay(s, d)]);
        out := out + [OnDay(s, d)];
      }
      assert spans[..|spans|] == spans;
      d := d + 1;
      assert Days(day0, d) == Days(day0, d - 1) + Days(d - 1, d);
    }
    assert d == dayN + 1 || (d == day0 && dayN < day0);
    assert Days(day0, d) == Range(PadLo(from), PadHi(to));
    OpenInRange(spans, PadLo(from), PadHi(to));
  }

  lemma OpenInRange(spans: seq<AvailabilitySpan>, lo: int, hi: int)
    requires ValidSpans(spans)
    ensures forall t :: t in WeeklyOpen(spans) * Range(lo, hi) <==> OpenAt(spans, t) && lo <= t < hi
  {
    hide WeeklyOpen, OpenAt;
    WeeklyOpenCountedOut(spans);
    assert forall t :: t in Range(lo, hi) <==> Between(lo, t, hi);
  }

  // --- minutes of the week ---------------------------------------------------

  /** (weekday, minute) pairs the set covers: what a teacher drew on the weekly grid. */
  ghost function WeeklyMinutes(spans: seq<AvailabilitySpan>): iset<(int, int)> {
    iset wd, m, k {:trigger MinuteIn(spans[k], wd, m)} |
      0 <= k < |spans| && MinuteIn(spans[k], wd, m) :: (wd, m)
  }

  ghost predicate MinuteIn(sp: AvailabilitySpan, wd: int, m: int) {
    sp.weekday == wd && sp.startMinute <= m < sp.endMinute
  }

  /** Covering the same weekly minutes is the same as being open at the same instants. */
  lemma SameMinutesSameOpen(xs: seq<AvailabilitySpan>, ys: seq<AvailabilitySpan>)
    requires WeeklyMinutes(xs) == WeeklyMinutes(ys)
    ensures WeeklyOpen(xs) == WeeklyOpen(ys)
  {
    forall t ensures t in WeeklyOpen(xs) <==> t in WeeklyOpen(ys) {
      OpenByMinute(xs, t);
      OpenByMinute(ys, t);
    }
  }

  lemma OpenByMinute(xs: seq<AvailabilitySpan>, t: int)
    ensures t in WeeklyOpen(xs)
       <==> (Weekday(DayOf(t)), (t - DayOf(t) * DAY) / MINUTE) in WeeklyMinutes(xs)
  {
    var wd, m := Weekday(DayOf(t)), (t - DayOf(t) * DAY) / MINUTE;
    forall k | 0 <= k < |xs|
      ensures SpanHas(xs[k], t) <==> MinuteIn(xs[k], wd, m)
    {
    }
    if t in WeeklyOpen(xs) {
      var k :| 0 <= k < |xs| && SpanHas(xs[k], t);
      assert MinuteIn(xs[k], wd, m);
    }
    if (wd, m) in WeeklyMinutes(xs) {
      var k :| 0 <= k < |xs| && MinuteIn(xs[k], wd, m);
      assert SpanHas(xs[k], t);
    }
  }
}
