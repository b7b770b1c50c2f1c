/**
  Slot generation (backend/internal/bookings/bookings.go): the starts a teacher's
  weekly availability, existing bookings, query window and clock leave bookable.
  Both the slots listing and the re-check inside `Create` run this code.
*/
module Slots {
  import opened UtcClock
  import opened Intervals
  import opened Projection
  import Sorting

  /** The grid, measured from the start of each merged window: 30 minutes. */
  const STEP: int := 1_800_000_000_000

  datatype Slot = Slot(startAt: int, endAt: int, price: int)

  /** Accepted lesson lengths in minutes; a trial is always 30. */
  predicate AllowedDuration(minutes: int) {
    minutes == 30 || minutes == 60 || minutes == 90 || minutes == 120
  }

  /** Where the run of open ticks holding `s` begins, looking back no further than `lo`. */
  ghost function RunStart(open: iset<int>, lo: int, s: int): (r: int)
    ensures r <= s
    ensures lo <= s ==> lo <= r
    ensures forall t :: r <= t < s ==> t in open
    ensures r > lo ==> r - 1 !in open
    decreases s - lo
  {
    if lo < s && s - 1 in open then RunStart(open, lo, s - 1) else s
  }

  ghost predicate OpenThroughout(spans: seq<AvailabilitySpan>, s: int, e: int) {
    forall t :: s <= t < e ==> t in WeeklyOpen(spans)
  }

  /**
    The meaning of "bookable": every instant of the lesson is open on its own UTC
    weekday, the start sits on the 30-minute grid of its projected window, nothing
    is in the past or outside the query, and no booking overlaps.
  */
  ghost predicate Bookable(spans: seq<AvailabilitySpan>, booked: seq<Interval>,
                           from: int, to: int, dur: int, now: int, s: int)
  {
    && OpenThroughout(spans, s, s + dur)
    && (s - RunStart(WeeklyOpen(spans), PadLo(from), s)) % STEP == 0
    && from <= s && now <= s
    && s + dur <= to
    && !OverlapsAny(s, s + dur, booked)
  }

  ghost predicate HasStart(slots: seq<Slot>, s: int) {
    exists i :: 0 <= i < |slots| && slots[i].startAt == s
  }

  /** Sorted with at least a grid step between starts, each slot `dur` long at `price`. */
  ghost predicate WellSpaced(slots: seq<Slot>, dur: int, price: int) {
    && (forall i :: 0 <= i < |slots| ==> slots[i] == Slot(slots[i].startAt, slots[i].startAt + dur, price))
    && (forall i, j :: 0 <= i < j < |slots| ==> slots[i].startAt + STEP <= slots[j].startAt)
  }

  /** `slots` is the complete and exact answer to a slot query. */
  ghost predicate Listing(spans: seq<AvailabilitySpan>, booked: seq<Interval>, from: int, to: int,
                          dur: int, price: int, now: int, slots: seq<Slot>)
  {
    && WellSpaced(slots, dur, price)
    && forall s :: HasStart(slots, s) <==> Bookable(spans, booked, from, to, dur, now, s)
  }

  // --- the same, counted out -------------------------------------------------

  /** `a` begins the run of open instants up to `s`, looking back no further than the midnight a day before `from`'s. */
  ghost predicate BeginsRun(spans: seq<AvailabilitySpan>, from: int, a: int, s: int) {
    var lo := (DayOf(from) - 1) * DAY;
    && lo <= a <= s
    && (forall t :: a <= t < s ==> OpenAt(spans, t))
    && (a == lo || !OpenAt(spans, a - 1))
  }

  /**
    Bookable without weekdays or windows: every instant of the lesson lies in a span of
    some week, the start is whole half hours after the open run holding it began (looking
    back to the midnight before the query's first day), and nothing is past, outside the
    query or taken.
  */
  ghost predicate OpenAndFree(spans: seq<AvailabilitySpan>, booked: seq<Interval>,
                              from: int, to: int, dur: int, now: int, s: int)
  {
    && from <= s && now <= s && s + dur <= to
    && (forall t :: s <= t < s + dur ==> OpenAt(spans, t))
    && (forall i :: 0 <= i < |booked| ==> s + dur <= booked[i].start || booked[i].end <= s)
    && exists a :: BeginsRun(spans, from, a, s) && (s - a) % (30 * MINUTE) == 0
  }

  lemma BookableCountedOut(spans: seq<AvailabilitySpan>, booked: seq<Interval>,
                           from: int, to: int, dur: int, now: int, s: int)
    requires ValidSpans(spans)
    ensures Bookable(spans, booked, from, to, dur, now, s) <==> OpenAndFree(spans, booked, from, to, dur, now, s)
  {
    WeeklyOpenCountedOut(spans);
    var lo, r := (DayOf(from) - 1) * DAY, RunStart(WeeklyOpen(spans), PadLo(from), s);
    if from <= s {
      assert lo <= s by { assert DayOf(from) * DAY <= from; }
      assert BeginsRun(spans, from, r, s);
      forall a | BeginsRun(spans, from, a, s) ensures a == r {
        assert a < r ==> OpenAt(spans, r - 1);
        assert r < a ==> a - 1 in WeeklyOpen(spans);
      }
    }
  }

  // --- windows and their grids -----------------------------------------------

  ghost predicate OnGrid(w: Interval, dur: int, s: int) {
    w.start <= s && s + dur <= w.end && (s - w.start) % STEP == 0
  }

  ghost predicate Passes(booked: seq<Interval>, lower: int, to: int, dur: int, s: int) {
    lower <= s && s + dur <= to && !OverlapsAny(s, s + dur, booked)
  }

  /** Bookable, said through the maximal windows of the projected days. */
  lemma BookableByWindow(spans: seq<AvailabilitySpan>, booked: seq<Interval>,
                         from: int, to: int, dur: int, now: int, s: int, windows: seq<Interval>)
    requires dur > 0
    requires NormalForm(windows)
    requires Points(windows) == WeeklyOpen(spans) * Range(PadLo(from), PadHi(to))
    ensures Bookable(spans, booked, from, to, dur, now, s)
       <==> ((exists j :: 0 <= j < |windows| && OnGrid(windows[j], dur, s))
             && Passes(booked, if now > from then now else from, to, dur, s))
  {
    var open := WeeklyOpen(spans);
    var lo, hi := PadLo(from), PadHi(to);
    NormalFormWindows(windows);
    if Passes(booked, if now > from then now else from, to, dur, s) {
      assert lo <= s - DAY by { assert DayOf(from) * DAY <= from; }
      assert s + dur <= hi - DAY by { assert to < (DayOf(to) + 1) * DAY; }
      if j :| 0 <= j < |windows| && OnGrid(windows[j], dur, s) {
        WindowGivesRun(open, lo, hi, windows, j, dur, s);
      }
      if OpenThroughout(spans, s, s + dur) {
        RunGivesWindow(open, lo, hi, windows, dur, s);
      }
    }
  }

  /** Inside a window, looking back stops at the window's start. */
  lemma WindowGivesRun(open: iset<int>, lo: int, hi: int, windows: seq<Interval>, j: nat, dur: int, s: int)
    requires j < |windows| && IsWindow(Points(windows), windows[j])
    requires Points(windows) == open * Range(lo, hi)
    requires lo <= s && dur > 0
    requires windows[j].start <= s && s + dur <= windows[j].end
    ensures forall t :: s <= t < s + dur ==> t in open
    ensures RunStart(open, lo, s) == windows[j].start
  {
    var w := windows[j];
    var r := RunStart(open, lo, s);
    assert w.start in Points(windows);
    forall t | w.start <= t < w.end ensures t in open {
      assert t in Points(windows);
    }
    assert Between(lo, w.start, hi);
    assert lo <= w.start - 1 ==> Between(lo, w.start - 1, hi);
    assert w.start - 1 in open && lo <= w.start - 1 ==> w.start - 1 in Points(windows);
  }

  /** A fitting open run lies in one window, which starts where looking back stops. */
  lemma RunGivesWindow(open: iset<int>, lo: int, hi: int, windows: seq<Interval>, dur: int, s: int)
    requires NormalForm(windows)
    requires Points(windows) == open * Range(lo, hi)
    requires lo <= s && s + dur <= hi && dur > 0
    requires forall t :: s <= t < s + dur ==> t in open
    ensures exists j :: 0 <= j < |windows| && windows[j].start == RunStart(open, lo, s) && s + dur <= windows[j].end
  {
    NormalFormWindows(windows);
    assert s in open && Between(lo, s, hi);
    assert s in Points(windows);
    var j :| 0 <= j < |windows| && Has(windows[j], s);
    var w := windows[j];
    assert IsWindow(Points(windows), w) by { assert w in windows; }
    if w.end < s + dur {
      assert w.end in open && Between(lo, w.end, hi);
      assert false;
    }
    WindowGivesRun(open, lo, hi, windows, j, dur, s);
  }

  // --- generation ------------------------------------------------------------

  predicate StartsEarlier(a: Slot, b: Slot) {
    a.startAt < b.startAt
  }

  ghost predicate Found(windows: seq<Interval>, k: nat, booked: seq<Interval>, lower: int, to: int, dur: int, s: int)
    requires k <= |windows|
  {
    (exists j :: 0 <= j < k && OnGrid(windows[j], dur, s)) && Passes(booked, lower, to, dur, s)
  }

  /** Two points of one grid less than a step apart are the same point. */
  lemma GridNeighbours(origin: int, s: int, x: int)
    requires (s - origin) % STEP == 0 && (x - origin) % STEP == 0
    requires s <= x < s + STEP
    ensures x == s
  {
  }

  lemma HasStartAppend(slots: seq<Slot>, x: Slot)
    ensures forall s :: HasStart(slots + [x], s) <==> HasStart(slots, s) || s == x.startAt
  {
    forall s ensures HasStart(slots + [x], s) <==> HasStart(slots, s) || s == x.startAt {
      if HasStart(slots, s) {
        var i :| 0 <= i < |slots| && slots[i].startAt == s;
        assert (slots + [x])[i].startAt == s;
      }
      assert (slots + [x])[|slots|] == x;
    }
  }

  ghost predicate HasKey(slots: seq<Slot>, key: int) {
    exists i :: 0 <= i < |slots| && slots[i].startAt / SECOND == key
  }

  lemma HasKeyAppend(slots: seq<Slot>, x: Slot)
    ensures forall key :: HasKey(slots, key) || key == x.startAt / SECOND ==> HasKey(slots + [x], key)
  {
    forall key | HasKey(slots, key) || key == x.startAt / SECOND ensures HasKey(slots + [x], key) {
      if HasKey(slots, key) {
        var i :| 0 <= i < |slots| && slots[i].startAt / SECOND == key;
        assert (slots + [x])[i].startAt / SECOND == key;
      } else {
        assert (slots + [x])[|slots|].startAt / SECOND == key;
      }
    }
  }

  /** Between windows: everything bookable in the first `k` windows has been emitted. */
  ghost predicate Progress(windows: seq<Interval>, k: nat, booked: seq<Interval>, lower: int, to: int,
                           dur: int, price: int, slots: seq<Slot>, seen: set<int>)
    requires k <= |windows|
  {
    && WellSpaced(slots, dur, price)
    && (k == 0 ==> slots == [])
    && (k > 0 ==> forall i :: 0 <= i < |slots| ==> slots[i].startAt + dur <= windows[k - 1].end)
    && (forall key :: key in seen ==> HasKey(slots, key))
    && forall x :: HasStart(slots, x) <==> Found(windows, k, booked, lower, to, dur, x)
  }

  /** Inside window `k`, with the stepping loop about to look at `s`. */
  ghost predicate InWindow(windows: seq<Interval>, k: nat, booked: seq<Interval>, lower: int, to: int,
                           dur: int, price: int, slots: seq<Slot>, seen: set<int>, s: int)
    requires k < |windows|
  {
    var w := windows[k];
    && w.start <= s && (s - w.start) % STEP == 0
    && WellSpaced(slots, dur, price)
    && (forall i :: 0 <= i < |slots| ==> slots[i].startAt + STEP <= s && slots[i].startAt + dur <= w.end)
    && (forall key :: key in seen ==> HasKey(slots, key))
    && forall x :: HasStart(slots, x) <==>
         (Found(windows, k, booked, lower, to, dur, x)
          || (OnGrid(w, dur, x) && x < s && Passes(booked, lower, to, dur, x)))
  }

  lemma EnterWindow(windows: seq<Interval>, k: nat, booked: seq<Interval>, lower: int, to: int,
                    dur: int, price: int, slots: seq<Slot>, seen: set<int>)
    requires k < |windows| && NormalForm(windows) && STEP <= dur
    requires Progress(windows, k, booked, lower, to, dur, price, slots, seen)
    ensures InWindow(windows, k, booked, lower, to, dur, price, slots, seen, windows[k].start)
  {
  }

  lemma NextGridPoint(w: Interval, dur: int, s: int)
    requires w.start <= s && (s - w.start) % STEP == 0
    ensures (s + STEP - w.start) % STEP == 0
    ensures forall x :: OnGrid(w, dur, x) && x < s + STEP ==> x <= s
  {
    forall x | OnGrid(w, dur, x) && s <= x < s + STEP ensures x == s {
      GridNeighbours(w.start, s, x);
    }
  }

  lemma TakeStart(windows: seq<Interval>, k: nat, booked: seq<Interval>, lower: int, to: int,
                  dur: int, price: int, slots: seq<Slot>, seen: set<int>, s: int)
    requires k < |windows|
    requires InWindow(windows, k, booked, lower, to, dur, price, slots, seen, s)
    requires s + dur <= windows[k].end && Passes(booked, lower, to, dur, s)
    ensures InWindow(windows, k, booked, lower, to, dur, price,
                     slots + [Slot(s, s + dur, price)], seen + {s / SECOND}, s + STEP)
  {
    NextGridPoint(windows[k], dur, s);
    HasStartAppend(slots, Slot(s, s + dur, price));
    HasKeyAppend(slots, Slot(s, s + dur, price));
    assert OnGrid(windows[k], dur, s);
  }

  lemma SkipStart(windows: seq<Interval>, k: nat, booked: seq<Interval>, lower: int, to: int,
                  dur: int, price: int, slots: seq<Slot>, seen: set<int>, s: int)
    requires k < |windows|
    requires InWindow(windows, k, booked, lower, to, dur, price, slots, seen, s)
    requires !Passes(booked, lower, to, dur, s)
    ensures InWindow(windows, k, booked, lower, to, dur, price, slots, seen, s + STEP)
  {
  }

  lemma LeaveWindow(windows: seq<Interval>, k: nat, booked: seq<Interval>, lower: int, to: int,
                    dur: int, price: int, slots: seq<Slot>, seen: set<int>, s: int)
    requires k < |windows|
    requires InWindow(windows, k, booked, lower, to, dur, price, slots, seen, s)
    requires s + dur > windows[k].end
    ensures Progress(windows, k + 1, booked, lower, to, dur, price, slots, seen)
  {
  }

  /** The `seen` map, keyed on Unix seconds, never holds the start about to be looked at. */
  lemma FreshKey(windows: seq<Interval>, k: nat, booked: seq<Interval>, lower: int, to: int,
                 dur: int, price: int, slots: seq<Slot>, seen: set<int>, s: int)
    requires k < |windows|
    requires InWindow(windows, k, booked, lower, to, dur, price, slots, seen, s)
    ensures s / SECOND !in seen
  {
  }

  lemma AllWindowsDone(spans: seq<AvailabilitySpan>, booked: seq<Interval>, from: int, to: int, dur: int,
                       price: int, now: int, windows: seq<Interval>, slots: seq<Slot>, seen: set<int>)
    requires dur > 0 && NormalForm(windows)
    requires Points(windows) == WeeklyOpen(spans) * Range(PadLo(from), PadHi(to))
    requires Progress(windows, |windows|, booked, if now > from then now else from, to, dur, price, slots, seen)
    ensures Listing(spans, booked, from, to, dur, price, now, slots)
  {
    forall s
      ensures HasStart(slots, s) <==> Bookable(spans, booked, from, to, dur, now, s)
    {
      BookableByWindow(spans, booked, from, to, dur, now, s, windows);
    }
  }

  lemma SortChangesNothing(slots: seq<Slot>, sorted: seq<Slot>, dur: int, price: int)
    requires WellSpaced(slots, dur, price)
    requires Sorting.Ordered(StartsEarlier, sorted) && multiset(sorted) == multiset(slots)
    ensures sorted == slots
  {
    Sorting.SortedAlready(StartsEarlier, slots, sorted);
  }

  /** The inner loop of `generateSlots`: step one window from its start. */
  method StepWindow(windows: seq<Interval>, k: nat, booked: seq<Interval>, lower: int, to: int,
                    dur: int, price: int, slots0: seq<Slot>, seen0: set<int>)
    returns (slots: seq<Slot>, seen: set<int>)
    requires k < |windows| && NormalForm(windows) && STEP <= dur
    requires Progress(windows, k, booked, lower, to, dur, price, slots0, seen0)
    ensures Progress(windows, k + 1, booked, lower, to, dur, price, slots, seen)
  {
    hide InWindow, Progress, NormalForm, OverlapsAny;
    slots, seen := slots0, seen0;
    var w := windows[k];
    var s := w.start;
    EnterWindow(windows, k, booked, lower, to, dur, price, slots, seen);
    while s + dur <= w.end
      invariant InWindow(windows, k, booked, lower, to, dur, price, slots, seen, s)
      decreases w.end - s
    {
      var e := s + dur;
      var hit := CheckOverlap(s, e, booked);
      if !(s < lower || e > to) && !hit {
        var key := s / SECOND;
        FreshKey(windows, k, booked, lower, to, dur, price, slots, seen, s);
        if key !in seen {
          TakeStart(windows, k, booked, lower, to, dur, price, slots, seen, s);
          seen := seen + {key};
          slots := slots + [Slot(s, e, price)];
        }
      } else {
        SkipStart(windows, k, booked, lower, to, dur, price, slots, seen, s);
      }
      s := s + STEP;
    }
    LeaveWindow(windows, k, booked, lower, to, dur, price, slots, seen, s);
  }

  /**
    `generateSlots`.  The `seen` map is kept as the source keeps it; `FreshKey` shows
    that it never rejects a start.
  */
  method GenerateSlots(spans: seq<AvailabilitySpan>, booked: seq<Interval>, from: int, to: int,
                       durationMinutes: int, price: int, now: int) returns (slots: seq<Slot>)
    requires ValidSpans(spans)
    requires AllowedDuration(durationMinutes)
    ensures Listing(spans, booked, from, to, durationMinutes * MINUTE, price, now, slots)
    ensures forall s :: HasStart(slots, s) <==> OpenAndFree(spans, booked, from, to, durationMinutes * MINUTE, now, s)
  {
    var dur := durationMinutes * MINUTE;
    var lower := from;
    if now > lower {
      lower := now;
    }
    var projected := ProjectSpans(spans, from, to);
    var windows := MergeIntervals(projected);

    slots := [];
    var seen: set<int> := {};
    for k := 0 to |windows|
      invariant Progress(windows, k, booked, lower, to, dur, price, slots, seen)
    {
      slots, seen := StepWindow(windows, k, booked, lower, to, dur, price, slots, seen);
    }
    AllWindowsDone(spans, booked, from, to, dur, price, now, windows, slots, seen);
    var sorted := Sorting.Sort(StartsEarlier, slots);
    SortChangesNothing(slots, sorted, dur, price);
    slots := sorted;
    forall s ensures HasStart(slots, s) <==> OpenAndFree(spans, booked, from, to, dur, now, s) {
      BookableCountedOut(spans, booked, from, to, dur, now, s);
    }
  }

  /** The re-check accepts: the start is bookable in its own one-slot window. */
  ghost predicate Accepts(spans: seq<AvailabilitySpan>, booked: seq<Interval>, s: int, dur: int, now: int) {
    Bookable(spans, booked, s, s + dur, dur, now, s)
  }

  /** `isBookableStart`: the one-slot query, scanned for exactly this start. */
  method IsBookableStart(spans: seq<AvailabilitySpan>, booked: seq<Interval>, start: int,
                         durationMinutes: int, now: int) returns (ok: bool)
    requires ValidSpans(spans)
    requires AllowedDuration(durationMinutes)
    ensures ok == Accepts(spans, booked, start, durationMinutes * MINUTE, now)
    ensures ok == OpenAndFree(spans, booked, start, start + durationMinutes * MINUTE, durationMinutes * MINUTE, now, start)
  {
    BookableCountedOut(spans, booked, start, start + durationMinutes * MINUTE, durationMinutes * MINUTE, now, start);
    var slots := GenerateSlots(spans, booked, start, start + durationMinutes * MINUTE, durationMinutes, 0, now);
    for i := 0 to |slots|
      invariant forall j :: 0 <= j < i ==> slots[j].startAt != start
    {
      if slots[i].startAt == start {
        assert HasStart(slots, start);
        return true;
      }
    }
    return false;
  }
}
