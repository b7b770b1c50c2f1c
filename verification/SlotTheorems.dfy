/**
  What holds between slot queries: one answer per query, answers that depend only on
  the weekly minutes covered, when the listing and the re-check in `Create` agree,
  and how large an answer can get (backend/internal/bookings/bookings.go, service.go).
*/
module SlotTheorems {
  import opened UtcClock
  import opened Intervals
  import opened Projection
  import opened Slots
  import Sorting

  // --- one answer ------------------------------------------------------------

  /** A query has one answer. */
  lemma ListingUnique(spans: seq<AvailabilitySpan>, booked: seq<Interval>, from: int, to: int,
                      dur: int, price: int, now: int, xs: seq<Slot>, ys: seq<Slot>)
    requires Listing(spans, booked, from, to, dur, price, now, xs)
    requires Listing(spans, booked, from, to, dur, price, now, ys)
    ensures xs == ys
  {
    SameStartsSameSlots(xs, ys, dur, price);
  }

  lemma SameStartsSameSlots(xs: seq<Slot>, ys: seq<Slot>, dur: int, price: int)
    requires WellSpaced(xs, dur, price) && WellSpaced(ys, dur, price)
    requires forall s :: HasStart(xs, s) <==> HasStart(ys, s)
    ensures xs == ys
  {
    forall x ensures x in xs <==> x in ys {
      SlotByStart(xs, dur, price, x);
      SlotByStart(ys, dur, price, x);
    }
    Sorting.StrictlyOrderedUnique(StartsEarlier, xs, ys);
  }

  lemma SlotByStart(xs: seq<Slot>, dur: int, price: int, x: Slot)
    requires WellSpaced(xs, dur, price)
    ensures x in xs <==> HasStart(xs, x.startAt) && x == Slot(x.startAt, x.startAt + dur, price)
  {
  }

  /**
    Two weekly sets covering the same weekly minutes give exactly the same slots,
    however the minutes are cut into spans (at midnight or anywhere else).
  */
  lemma SameWeeklyMinutesSameSlots(a: seq<AvailabilitySpan>, b: seq<AvailabilitySpan>, booked: seq<Interval>,
                                   from: int, to: int, dur: int, price: int, now: int,
                                   xs: seq<Slot>, ys: seq<Slot>)
    requires WeeklyMinutes(a) == WeeklyMinutes(b)
    requires Listing(a, booked, from, to, dur, price, now, xs)
    requires Listing(b, booked, from, to, dur, price, now, ys)
    ensures xs == ys
  {
    SameMinutesSameOpen(a, b);
    forall s ensures HasStart(xs, s) <==> HasStart(ys, s) {
      assert Bookable(a, booked, from, to, dur, now, s) <==> Bookable(b, booked, from, to, dur, now, s);
    }
    SameStartsSameSlots(xs, ys, dur, price);
  }

  // --- only nearby bookings matter ---------------------------------------------

  predicate Touches(iv: Interval, from: int, to: int) {
    iv.start < to && iv.end > from
  }

  /** The interval query: the live bookings that overlap [from, to). */
  function Fetch(live: seq<Interval>, from: int, to: int): (r: seq<Interval>)
    ensures forall iv :: iv in r <==> iv in live && Touches(iv, from, to)
  {
    if live == [] then []
    else if Touches(live[0], from, to) then [live[0]] + Fetch(live[1..], from, to)
    else Fetch(live[1..], from, to)
  }

  /** Reading only the bookings that overlap the query window loses no conflict inside it. */
  lemma FetchLosesNothing(live: seq<Interval>, from: int, to: int, s: int, e: int)
    requires from <= s && e <= to
    ensures OverlapsAny(s, e, Fetch(live, from, to)) == OverlapsAny(s, e, live)
  {
    var near := Fetch(live, from, to);
    if i :| 0 <= i < |near| && s < near[i].end && near[i].start < e {
      assert near[i] in live;
    }
    if i :| 0 <= i < |live| && s < live[i].end && live[i].start < e {
      assert live[i] in near;
      var j :| 0 <= j < |near| && near[j] == live[i];
      assert s < near[j].end && near[j].start < e;
    }
  }

  // --- listing against re-check --------------------------------------------------

  /** Looking back from the same instant over a longer range. */
  lemma RunStartFurtherBack(open: iset<int>, lo: int, later: int, s: int)
    requires lo <= later <= s
    ensures RunStart(open, later, s) == if RunStart(open, lo, s) < later then later else RunStart(open, lo, s)
  {
  }

  lemma RunStartIs(open: iset<int>, lo: int, s: int, a: int)
    requires lo <= a <= s && a - 1 !in open
    requires forall t :: a <= t < s ==> t in open
    ensures RunStart(open, lo, s) == a
  {
  }

  lemma PadBefore(t: int)
    ensures PadLo(t) <= t - DAY && PadLo(t) % STEP == 0
  {
    MidnightOnHalfHour(DayOf(t) - 1);
  }

  lemma PadLoMonotone(t: int, u: int)
    requires t <= u
    ensures PadLo(t) <= PadLo(u)
  {
    DayOfMonotone(t, u);
  }

  /** Everything about a start except the grid. */
  ghost predicate FitsAndFree(spans: seq<AvailabilitySpan>, live: seq<Interval>, dur: int, now: int, s: int) {
    && OpenThroughout(spans, s, s + dur)
    && now <= s
    && !OverlapsAny(s, s + dur, live)
  }

  /**
    The grid the listing steps on begins before the re-check's padded day and off the
    half hour, so the two grids differ, and `s` is on one of them.
  */
  ghost predicate GridShifted(spans: seq<AvailabilitySpan>, from: int, s: int) {
    var a := RunStart(WeeklyOpen(spans), PadLo(from), s);
    && a < PadLo(s)
    && a % STEP != 0
    && (s % STEP == a % STEP || s % STEP == 0)
  }

  /**
    When the listing and the re-check give the same verdict on a start inside the
    query window: exactly when they are not both deciding on shifted grids.
  */
  lemma AgreementExact(spans: seq<AvailabilitySpan>, live: seq<Interval>, from: int, to: int,
                       dur: int, now: int, s: int)
    requires dur > 0
    requires from <= s && s + dur <= to
    ensures (Bookable(spans, Fetch(live, from, to), from, to, dur, now, s)
             <==> Accepts(spans, Fetch(live, s, s + dur), s, dur, now))
       <==> !(FitsAndFree(spans, live, dur, now, s) && GridShifted(spans, from, s))
  {
    FetchLosesNothing(live, from, to, s, s + dur);
    FetchLosesNothing(live, s, s + dur, s, s + dur);
    var open := WeeklyOpen(spans);
    PadBefore(from);
    PadBefore(s);
    PadLoMonotone(from, s);
    RunStartFurtherBack(open, PadLo(from), PadLo(s), s);
    var a := RunStart(open, PadLo(from), s);
    ModDifference(s, a);
    ModDifference(s, PadLo(s));
  }

  lemma ModDifference(s: int, a: int)
    ensures (s - a) % STEP == 0 <==> s % STEP == a % STEP
  {
  }

  ghost predicate StartsOnHalfHours(spans: seq<AvailabilitySpan>) {
    forall k :: 0 <= k < |spans| ==> spans[k].startMinute % 30 == 0
  }

  /** The maximal stitched window holding `s` starts at most 24 hours before it. */
  ghost predicate StitchedStartNear(spans: seq<AvailabilitySpan>, s: int) {
    exists a :: s - DAY <= a <= s && a - 1 !in WeeklyOpen(spans) && OpenThroughout(spans, a, s)
  }

  /**
    Under either proviso a future start is listed exactly when it lies in the query
    window and `Create`'s re-check would accept it.
  */
  lemma ListingAgreesWithRecheck(spans: seq<AvailabilitySpan>, live: seq<Interval>, from: int, to: int,
                                 dur: int, now: int, s: int)
    requires ValidSpans(spans) && dur > 0 && now < s
    requires StartsOnHalfHours(spans) || StitchedStartNear(spans, s)
    ensures Bookable(spans, Fetch(live, from, to), from, to, dur, now, s)
       <==> from <= s && s + dur <= to && Accepts(spans, Fetch(live, s, s + dur), s, dur, now)
  {
    if from <= s && s + dur <= to {
      AgreementExact(spans, live, from, to, dur, now, s);
      if FitsAndFree(spans, live, dur, now, s) && GridShifted(spans, from, s) {
        var open := WeeklyOpen(spans);
        PadBefore(s);
        PadBefore(from);
        if StartsOnHalfHours(spans) {
          AlignedRun(spans, PadLo(from), s);
        } else {
          var a :| s - DAY <= a <= s && a - 1 !in open && OpenThroughout(spans, a, s);
          PadLoMonotone(from, s);
          NearStartStopsRun(open, PadLo(from), s, a);
        }
        assert false;
      }
    }
  }

  lemma NearStartStopsRun(open: iset<int>, lo: int, s: int, a: int)
    requires a <= s && a - 1 !in open
    ensures RunStart(open, lo, s) >= a
  {
  }

  /** A run that begins inside the looked-at days begins where some span begins. */
  lemma RunBeginsAtSpan(spans: seq<AvailabilitySpan>, r: int)
    requires ValidSpans(spans)
    requires r in WeeklyOpen(spans) && r - 1 !in WeeklyOpen(spans)
    ensures exists k :: 0 <= k < |spans| && r == DayOf(r) * DAY + spans[k].startMinute * MINUTE
  {
    var k :| 0 <= k < |spans| && SpanHas(spans[k], r);
    if DayOf(r) * DAY + spans[k].startMinute * MINUTE < r {
      DayOfUnique(r - 1, DayOf(r));
      assert SpanHas(spans[k], r - 1);
      assert false;
    }
  }

  lemma HalfHourMinute(d: int, m: int)
    requires m % 30 == 0
    ensures (d * DAY + m * MINUTE) % STEP == 0
  {
    var n := m / 30;
    assert d * DAY + m * MINUTE == (48 * d + n) * STEP;
  }

  lemma AlignedRun(spans: seq<AvailabilitySpan>, lo: int, s: int)
    requires ValidSpans(spans) && StartsOnHalfHours(spans)
    requires lo <= s && lo % STEP == 0 && s in WeeklyOpen(spans)
    ensures RunStart(WeeklyOpen(spans), lo, s) % STEP == 0
  {
    var r := RunStart(WeeklyOpen(spans), lo, s);
    if lo < r {
      RunBeginsAtSpan(spans, r);
      var k :| 0 <= k < |spans| && r == DayOf(r) * DAY + spans[k].startMinute * MINUTE;
      HalfHourMinute(DayOf(r), spans[k].startMinute);
    }
  }

  /** Monday 00:15 through Wednesday, on the 15-minute grid the weekly editor allows. */
  const LONG_WINDOW: seq<AvailabilitySpan> :=
    [AvailabilitySpan(1, 15, 1440), AvailabilitySpan(2, 0, 1440), AvailabilitySpan(3, 0, 1440)]

  /**
    Without a proviso the two disagree: Wednesday 12:15 is listed in a query from
    Monday, and the re-check of the very same start refuses it.
  */
  lemma ListedButRefused()
    ensures ValidSpans(LONG_WINDOW)
    ensures var monday, s := 4 * DAY, 6 * DAY + 735 * MINUTE;
            && Bookable(LONG_WINDOW, [], monday, monday + 14 * DAY, 60 * MINUTE, monday, s)
            && !Accepts(LONG_WINDOW, [], s, 60 * MINUTE, monday)
  {
    var monday, s := 4 * DAY, 6 * DAY + 735 * MINUTE;
    var spans := LONG_WINDOW;
    var open := WeeklyOpen(spans);
    var a := monday + 15 * MINUTE;
    forall t | a <= t < 7 * DAY ensures t in open {
      var k := if t < 5 * DAY then 0 else if t < 6 * DAY then 1 else 2;
      DayOfUnique(t, 4 + k);
      assert SpanHas(spans[k], t);
    }
    DayOfUnique(a - 1, 4);
    assert a - 1 !in open;
    DayOfUnique(monday, 4);
    DayOfUnique(s, 6);
    RunStartIs(open, PadLo(monday), s, a);
    assert Fetch([], monday, monday + 14 * DAY) == [];
    assert Fetch([], s, s + 60 * MINUTE) == [];
    AgreementExact(spans, [], monday, monday + 14 * DAY, 60 * MINUTE, monday, s);
  }

  // --- size --------------------------------------------------------------------

  /** The longest window the slots query accepts. */
  const MAX_WINDOW: int := 21 * DAY

  lemma {:induction false} SpacedFrom(slots: seq<Slot>, dur: int, price: int, i: nat)
    requires WellSpaced(slots, dur, price) && i < |slots|
    ensures slots[i].startAt >= slots[0].startAt + i * STEP
  {
    if i > 0 {
      SpacedFrom(slots, dur, price, i - 1);
      assert slots[i - 1].startAt + STEP <= slots[i].startAt;
    }
  }

  /** Within the 21-day cap no answer holds more than 1008 slots. */
  lemma SlotCountBound(spans: seq<AvailabilitySpan>, booked: seq<Interval>, from: int, to: int,
                       minutes: int, price: int, now: int, slots: seq<Slot>)
    requires AllowedDuration(minutes)
    requires to - from <= MAX_WINDOW
    requires Listing(spans, booked, from, to, minutes * MINUTE, price, now, slots)
    ensures |slots| <= 1008
  {
    if |slots| > 0 {
      var dur := minutes * MINUTE;
      var n := |slots| - 1;
      SpacedFrom(slots, dur, price, n);
      assert HasStart(slots, slots[0].startAt) && HasStart(slots, slots[n].startAt);
      assert Bookable(spans, booked, from, to, dur, now, slots[0].startAt);
      assert Bookable(spans, booked, from, to, dur, now, slots[n].startAt);
      assert dur >= STEP;
      assert n * STEP <= 1007 * STEP;
    }
  }

  // --- price ---------------------------------------------------------------------

  /** `hourlyPrice`: rate times minutes over 60, ties up (the rate column is never negative). */
  function HourlyPrice(perHourMinor: nat, minutes: nat): (amount: nat)
    ensures -30 < 60 * amount - perHourMinor * minutes <= 30
  {
    (perHourMinor * minutes + 30) / 60
  }
}
