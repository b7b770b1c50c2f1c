/**
  The booking service (backend/internal/bookings/service.go): each method performs the
  source's reads, checks and writes in order, and its contract is the call's meaning in
  `BookingRules`, about which the run theorems speak.
*/
module Bookings {
  import opened Options
  import opened UtcClock
  import opened Intervals
  import opened Projection
  import opened Slots
  import opened SlotTheorems
  import opened Tables
  import opened Money
  import opened BookingRules
  import opened Repository
  import opened Payments
  import Text

  const DEFAULT_WINDOW: int := 14 * DAY
  const DEFAULT_MINUTES: int := 60

  datatype SlotResult = SlotResult(from: int, to: int, durationMinutes: int, slots: seq<Slot>)

  /** The query `Slots` settles on: clamped to now, 14 days long unless said otherwise, 60 minutes by default. */
  function Window(from: Option<int>, to: Option<int>, minutes: int, now: int): (q: SlotResult)
    ensures q.from >= now
    ensures q.durationMinutes != 0
  {
    var start := if from.Some? && from.value >= now then from.value else now;
    SlotResult(start, if to.Some? then to.value else start + 14 * DAY,
               if minutes == 0 then 60 else minutes, [])
  }

  predicate Askable(q: SlotResult) {
    q.from < q.to && q.to - q.from <= 21 * DAY && q.durationMinutes in {30, 60, 90, 120}
  }

  /** The answer the tables call for: every start open to the weekly set that no live booking of the teacher touches. */
  ghost predicate Answers(db: Db, teacher: Id, now: int, q: SlotResult)
    requires teacher in db.teachers && q.durationMinutes >= 0
  {
    var t := db.teachers[teacher];
    var dur := q.durationMinutes * MINUTE;
    && WellSpaced(q.slots, dur, HourlyPrice(t.pricePerHour, q.durationMinutes))
    && forall s :: HasStart(q.slots, s) <==>
         Bookable(t.spans, [], q.from, q.to, dur, now, s) && !TeacherBusy(db, teacher, s, s + dur)
  }

  lemma FetchedAreLive(db: Db, teacher: Id, from: int, to: int, booked: seq<Interval>, s: int, e: int)
    requires NoneInvented(db, teacher, from, to, booked)
    requires OverlapsAny(s, e, booked)
    ensures TeacherBusy(db, teacher, s, e)
  {
    var i :| 0 <= i < |booked| && s < booked[i].end && booked[i].start < e;
    assert booked[i] in booked;
    var id :| id in db.bookings && IsBookedIn(db.bookings[id], teacher, from, to) && SpansIt(db.bookings[id], booked[i]);
    assert Clash(db.bookings[id], s, e);
  }

  lemma LiveAreFetched(db: Db, teacher: Id, from: int, to: int, booked: seq<Interval>, s: int, e: int)
    requires NoneMissed(db, teacher, from, to, booked)
    requires from <= s && e <= to
    requires TeacherBusy(db, teacher, s, e)
    ensures OverlapsAny(s, e, booked)
  {
  }

  /** Overlapping a fetched range is overlapping a live booking, for any start inside the fetched window. */
  lemma FetchedMeansBusy(db: Db, teacher: Id, from: int, to: int, booked: seq<Interval>, s: int, e: int)
    requires BookedIn(db, teacher, from, to, booked)
    requires from <= s && e <= to
    ensures OverlapsAny(s, e, booked) <==> TeacherBusy(db, teacher, s, e)
  {
    hide NoneMissed, NoneInvented, OverlapsAny, TeacherBusy;
    if OverlapsAny(s, e, booked) { FetchedAreLive(db, teacher, from, to, booked, s, e); }
    if TeacherBusy(db, teacher, s, e) { LiveAreFetched(db, teacher, from, to, booked, s, e); }
  }

  /** The re-check against the fetched bookings already excludes every clash the teacher-side constraint would reject. */
  lemma RecheckCoversTeacherGuard(db: Db, teacher: Id, booked: seq<Interval>, spans: seq<AvailabilitySpan>,
                                  s: int, dur: int, now: int)
    requires BookedIn(db, teacher, s, s + dur, booked)
    ensures Accepts(spans, booked, s, dur, now)
       <==> Accepts(spans, [], s, dur, now) && !TeacherBusy(db, teacher, s, s + dur)
  {
    FetchedMeansBusy(db, teacher, s, s + dur, booked, s, s + dur);
  }

  lemma ListingAnswers(db: Db, teacher: Id, booked: seq<Interval>, now: int, q: SlotResult)
    requires teacher in db.teachers && q.durationMinutes >= 0
    requires BookedIn(db, teacher, q.from, q.to, booked)
    requires Listing(db.teachers[teacher].spans, booked, q.from, q.to, q.durationMinutes * MINUTE,
                     HourlyPrice(db.teachers[teacher].pricePerHour, q.durationMinutes), now, q.slots)
    ensures Answers(db, teacher, now, q)
  {
    var spans, dur := db.teachers[teacher].spans, q.durationMinutes * MINUTE;
    forall s
      ensures Bookable(spans, booked, q.from, q.to, dur, now, s)
         <==> Bookable(spans, [], q.from, q.to, dur, now, s) && !TeacherBusy(db, teacher, s, s + dur)
    {
      if q.from <= s && s + dur <= q.to {
        FetchedMeansBusy(db, teacher, q.from, q.to, booked, s, s + dur);
      }
    }
  }

  class BookingService {
    const payments: PaymentService
    const store: Store
    const clearingDays: nat

    ghost predicate Wired() {
      && payments.Wired()
      && payments.store == store
      && payments.webhooks.clearingDays == clearingDays
    }

    function World(): World
      reads payments.provider, payments.provider.sink.store
    {
      payments.World()
    }

    constructor (payments: PaymentService)
      requires payments.Wired()
      ensures Wired() && this.payments == payments
    {
      this.payments := payments;
      store := payments.store;
      clearingDays := payments.webhooks.clearingDays;
    }

    method Slots(teacher: Id, from: Option<int>, to: Option<int>, minutes: int, now: int)
      returns (r: Result<SlotResult, Error>)
      requires teacher in store.teachers ==> ValidSpans(store.teachers[teacher].spans)
      ensures var q := Window(from, to, minutes, now);
              match r
              case Err(e) => e == if !Askable(q) then Invalid else TeacherNotFound
              case Ok(a) => Askable(q) && a == q.(slots := a.slots) && teacher in store.teachers
                            && Answers(store.Tables(), teacher, now, a)
      ensures Askable(Window(from, to, minutes, now)) && teacher in store.teachers ==> r.Ok?
    {
      var start := now;
      if from.Some? {
        start := from.value;
      }
      if start < now {
        start := now;
      }
      var end := start + DEFAULT_WINDOW;
      if to.Some? {
        end := to.value;
      }
      if end <= start {
        return Err(Invalid);
      }
      if end - start > MAX_WINDOW {
        return Err(Invalid);
      }
      var duration := minutes;
      if duration == 0 {
        duration := DEFAULT_MINUTES;
      }
      if !AllowedDuration(duration) {
        return Err(Invalid);
      }
      if teacher !in store.teachers {
        return Err(TeacherNotFound);
      }
      var t := store.teachers[teacher];
      var booked := store.BookedIntervals(teacher, start, end);
      var price := HourlyPrice(t.pricePerHour, duration);
      var slots := GenerateSlots(t.spans, booked, start, end, duration, price, now);
      ListingAnswers(store.Tables(), teacher, booked, now, SlotResult(start, end, duration, slots));
      return Ok(SlotResult(start, end, duration, slots));
    }

    /** `Create`; `id` is the row's generated key, `intentFails` a failing intent insert (only logged). */
    method Create(now: int, student: Id, input: CreateInput, id: Id, intentFails: bool) returns (r: Result<Id, Error>)
      requires Wired() && id !in store.bookings
      requires input.teacher in store.teachers ==> ValidSpans(store.teachers[input.teacher].spans)
      modifies payments.provider, store
      ensures (World(), r) == BookingRules.Create(old(World()), now, student, input, id, intentFails)
    {
      if input.teacher !in store.teachers {
        return Err(TeacherNotFound);
      }
      var t := store.teachers[input.teacher];
      if t.owner != NIL_ID && t.owner == student {
        return Err(CannotBookSelf);
      }
      var duration := input.durationMinutes;
      if input.isTrial {
        duration := 30;
      } else if !AllowedDuration(duration) {
        return Err(Invalid);
      }
      var start := input.startAt;
      if start <= now {
        return Err(Invalid);
      }
      var end := start + duration * MINUTE;
      var price := 0;
      if input.isTrial {
        if t.trialPrice.None? {
          return Err(Invalid);
        }
        price := t.trialPrice.value;
      } else {
        price := HourlyPrice(t.pricePerHour, duration);
      }
      var booked := store.BookedIntervals(input.teacher, start, end);
      var ok := IsBookableStart(t.spans, booked, start, duration, now);
      RecheckCoversTeacherGuard(store.Tables(), input.teacher, booked, t.spans, start, duration * MINUTE, now);
      if !ok {
        return Err(SlotUnavailable);
      }
      var inserted := store.InsertBooking(id, NewBooking(student, input, price));
      if inserted != Inserted {
        return Err(SlotTaken);
      }
      if !intentFails {
        store.EnsurePayment(id, price);
      }
      return Ok(id);
    }

    method Pay(now: int, caller: Id, id: Id, token: string) returns (err: Option<Error>)
      requires Wired()
      modifies payments.provider, store
      ensures (World(), err) == BookingRules.Pay(old(World()), clearingDays, now, caller, id, token)
    {
      if id !in store.bookings {
        return Some(BookingNotFound);
      }
      var b := store.bookings[id];
      if b.student != caller {
        return Some(NotStudent);
      }
      match b.status {
        case Confirmed => return Some(AlreadyPaid);
        case Completed => return Some(AlreadyPaid);
        case Cancelled => return Some(InvalidTransition);
        case PendingPayment =>
      }
      var failure := payments.Authorize(now, id, Text.TrimSpace(token));
      if failure.Some? {
        return Some(Translate(failure.value));
      }
      return None;
    }

    method Complete(now: int, caller: Id, id: Id, fault: Fault) returns (err: Option<Error>)
      requires Wired()
      modifies payments.provider, store
      ensures (World(), err) == BookingRules.Complete(old(World()), clearingDays, now, caller, id, fault)
    {
      if id !in store.bookings {
        return Some(BookingNotFound);
      }
      var b := store.bookings[id];
      var owner := if b.teacher in store.teachers then store.teachers[b.teacher].owner else NIL_ID;
      if owner == NIL_ID || owner != caller {
        return Some(NotTeacherOwner);
      }
      if b.status != Confirmed {
        return Some(InvalidTransition);
      }
      if now <= b.endAt {
        return Some(TooEarly);
      }
      var failure := payments.Capture(now, id);
      if failure.Some? {
        return Some(Translate(failure.value));
      }
      if fault == StatusWriteFails {
        RewriteSame(World().db, id);
        return Some(WriteFailed);
      }
      store.WriteBooking(id, store.bookings[id].(status := Completed));
      return None;
    }

    method Cancel(now: int, caller: Id, id: Id) returns (err: Option<Error>)
      requires Wired()
      modifies payments.provider, store
      ensures (World(), err) == BookingRules.Cancel(old(World()), clearingDays, now, caller, id)
    {
      if id !in store.bookings {
        return Some(BookingNotFound);
      }
      var b := store.bookings[id];
      var owner := if b.teacher in store.teachers then store.teachers[b.teacher].owner else NIL_ID;
      if !(b.student == caller || (owner != NIL_ID && owner == caller)) {
        return Some(Forbidden);
      }
      if b.status != PendingPayment && b.status != Confirmed {
        return Some(InvalidTransition);
      }
      DoCancel(now, id, CancellerFor(b, caller), true);
      return None;
    }

    method AdminForceCancel(now: int, id: Id, refund: bool) returns (err: Option<Error>)
      requires Wired()
      modifies payments.provider, store
      ensures (World(), err) == ForceCancel(old(World()), clearingDays, now, id, refund)
    {
      if id !in store.bookings {
        return Some(BookingNotFound);
      }
      var b := store.bookings[id];
      if b.status != PendingPayment && b.status != Confirmed {
        return Some(InvalidTransition);
      }
      DoCancel(now, id, ByAdmin, refund);
      return None;
    }

    method AdminRefund(now: int, id: Id) returns (err: Option<Error>)
      requires Wired()
      modifies payments.provider, store
      ensures (World(), err) == BookingRules.AdminRefund(old(World()), clearingDays, now, id)
    {
      if id !in store.bookings {
        return Some(BookingNotFound);
      }
      var failure := payments.Refund(now, id);
      if failure.Some? {
        return Some(Translate(failure.value));
      }
      return None;
    }

    /** `doCancel`: the one cancellation path. */
    method DoCancel(now: int, id: Id, who: Canceller, refund: bool)
      requires Wired() && id in store.bookings
      modifies payments.provider, store
      ensures World() == BookingRules.DoCancel(old(World()), clearingDays, now, id, who, refund)
    {
      store.WriteBooking(id, store.bookings[id].(status := Cancelled, cancelledBy := who));
      if refund {
        var logged := payments.Refund(now, id);
      }
    }

    method NoShow(now: int, caller: Id, id: Id, party: NoShowParty, fault: Fault) returns (err: Option<Error>)
      requires Wired()
      modifies payments.provider, store
      ensures (World(), err) == BookingRules.NoShow(old(World()), clearingDays, now, caller, id, party, fault)
    {
      if party == NobodyMissed {
        return Some(Invalid);
      }
      if id !in store.bookings {
        return Some(BookingNotFound);
      }
      var b := store.bookings[id];
      var owner := if b.teacher in store.teachers then store.teachers[b.teacher].owner else NIL_ID;
      if owner == NIL_ID || owner != caller {
        return Some(NotTeacherOwner);
      }
      if b.status != Confirmed {
        return Some(InvalidTransition);
      }
      if now <= b.startAt {
        return Some(LessonNotStarted);
      }
      if party == StudentMissed {
        var failure := payments.Capture(now, id);
        if failure.Some? {
          return Some(Translate(failure.value));
        }
        ghost var captured := World().db;
        if fault == NoShowWriteFails {
          return Some(WriteFailed);
        }
        store.WriteBooking(id, store.bookings[id].(noShow := StudentMissed));
        if fault == StatusWriteFails {
          return Some(WriteFailed);
        }
        store.WriteBooking(id, store.bookings[id].(status := Completed));
        RewriteTwice(captured, id, captured.bookings[id].(noShow := StudentMissed), store.bookings[id]);
        return None;
      }
      if fault == NoShowWriteFails {
        return Some(WriteFailed);
      }
      store.WriteBooking(id, b.(noShow := TeacherMissed));
      if fault == StatusWriteFails {
        return Some(WriteFailed);
      }
      DoCancel(now, id, ByTeacher, true);
      return None;
    }
  }
}
