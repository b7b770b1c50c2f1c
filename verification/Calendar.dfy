/**
  The calendar over whole runs: no double booking, listed starts are bookable, and a
  cancelled lesson's time is free again (backend/internal/bookings/service.go,
  backend/migrations/000004_bookings.up.sql).
*/
module Calendar {
  import opened Options
  import opened UtcClock
  import opened Projection
  import opened Slots
  import opened SlotTheorems
  import opened Tables
  import opened Money
  import opened Payouts
  import opened BookingRules
  import opened Lifecycle
  import opened LifecycleRuns
  import opened Bookings
  import Text

  predicate SharesSomeone(x: Booking, y: Booking) {
    x.teacher == y.teacher || x.student == y.student
  }

  predicate Collide(x: Booking, y: Booking) {
    x.status != Cancelled && y.status != Cancelled && x.startAt < y.endAt && y.startAt < x.endAt
  }

  /** Bookings of one teacher, or of one student, that are not cancelled never overlap. */
  ghost predicate NoDoubleBooking(db: Db) {
    forall i, j :: i in db.bookings && j in db.bookings && i != j && SharesSomeone(db.bookings[i], db.bookings[j]) ==>
      !Collide(db.bookings[i], db.bookings[j])
  }

  /** Moving bookings forward never makes a dead one live again. */
  lemma AdvanceKeepsCalendar(before: Db, after: Db)
    requires NoDoubleBooking(before) && BookingsAdvance(before, after)
    requires after.bookings.Keys == before.bookings.Keys
    ensures NoDoubleBooking(after)
  {
  }

  /** `Create` adds a booking only where neither its teacher nor its student is busy. */
  lemma CreateKeepsCalendar(w: World, now: int, student: Id, input: CreateInput, id: Id, intentFails: bool)
    requires NoDoubleBooking(w.db) && id !in w.db.bookings
    ensures NoDoubleBooking(Create(w, now, student, input, id, intentFails).0.db)
  {
    hide Accepts;
    var v := Create(w, now, student, input, id, intentFails).0;
    if id in v.db.bookings {
      var b := v.db.bookings[id];
      assert !TeacherBusy(w.db, b.teacher, b.startAt, b.endAt) && !StudentBusy(w.db, b.student, b.startAt, b.endAt);
      NewRowKeepsCalendar(w.db, id, b);
    }
  }

  lemma NewRowKeepsCalendar(db: Db, id: Id, b: Booking)
    requires NoDoubleBooking(db) && id !in db.bookings
    requires !TeacherBusy(db, b.teacher, b.startAt, b.endAt) && !StudentBusy(db, b.student, b.startAt, b.endAt)
    ensures NoDoubleBooking(SetBooking(db, id, b))
  {
  }

  lemma OnlyCreateAdds(w: World, clearingDays: nat, now: int, c: Call)
    requires !c.CallCreate?
    ensures BookingRules.Next(w, clearingDays, now, c).db.bookings.Keys == w.db.bookings.Keys
  {
    hide Authorize, Capture, Refund, CaptureAndFinish, DoCancel, HourlyPrice, SoloRun, Text.TrimSpace;
    if c.CallPayout? { PayoutMovesRows(w.db, c.admin, c.batch, now); }
  }

  lemma CallKeepsCalendar(w: World, clearingDays: nat, now: int, c: Call)
    requires Joint(w) && Possible(w, c) && NoDoubleBooking(w.db)
    ensures NoDoubleBooking(BookingRules.Next(w, clearingDays, now, c).db)
  {
    hide Joint, NoDoubleBooking, BookingsAdvance, Create;
    if c.CallCreate? {
      CreateKeepsCalendar(w, now, c.student, c.input, c.id, c.intentFails);
    } else {
      CallKeeps(w, clearingDays, now, c);
      OnlyCreateAdds(w, clearingDays, now, c);
      AdvanceKeepsCalendar(w.db, BookingRules.Next(w, clearingDays, now, c).db);
    }
  }

  /** No run of calls ever double-books a teacher or a student. */
  lemma {:induction false} RunNeverDoubleBooks(w: World, clearingDays: nat, calls: seq<Timed>)
    requires Joint(w) && NoDoubleBooking(w.db)
    ensures NoDoubleBooking(RunCalls(w, clearingDays, calls).db)
    decreases |calls|
  {
    hide Joint, NoDoubleBooking, BookingRules.Next;
    if calls != [] {
      var c := calls[0];
      var v := if Possible(w, c.call) then BookingRules.Next(w, clearingDays, c.now, c.call) else w;
      if Possible(w, c.call) {
        CallKeeps(w, clearingDays, c.now, c.call);
        CallKeepsCalendar(w, clearingDays, c.now, c.call);
      }
      RunNeverDoubleBooks(v, clearingDays, calls[1..]);
    }
  }

  /** From the empty tables: every reachable calendar is free of double bookings. */
  lemma NeverDoubleBooked(clearingDays: nat, calls: seq<Timed>, i: Id, j: Id)
    requires var db := RunCalls(EMPTY_WORLD, clearingDays, calls).db;
             i in db.bookings && j in db.bookings && i != j && SharesSomeone(db.bookings[i], db.bookings[j])
    ensures var db := RunCalls(EMPTY_WORLD, clearingDays, calls).db; !Collide(db.bookings[i], db.bookings[j])
  {
    EmptyWorldJoint();
    RunNeverDoubleBooks(EMPTY_WORLD, clearingDays, calls);
  }

  // --- listed starts are bookable ------------------------------------------------------

  /**
    A future start is in the slots answer exactly when it lies in the queried window and
    `Create` finds it available, at the listed price, for any student but the teacher.
  */
  lemma ListedIffBookable(db: Db, now: int, teacher: Id, q: SlotResult, s: int, student: Id)
    requires teacher in db.teachers && ValidSpans(db.teachers[teacher].spans)
    requires Askable(q) && Answers(db, teacher, now, q)
    requires db.teachers[teacher].owner == NIL_ID || db.teachers[teacher].owner != student
    requires now < s
    requires StartsOnHalfHours(db.teachers[teacher].spans) || StitchedStartNear(db.teachers[teacher].spans, s)
    ensures var verdict := CreateVerdict(db, now, student, CreateInput(teacher, s, q.durationMinutes, false));
            var dur := q.durationMinutes * MINUTE;
            && (HasStart(q.slots, s) <==> q.from <= s && s + dur <= q.to && verdict != Err(SlotUnavailable))
            && (forall i :: 0 <= i < |q.slots| && q.slots[i].startAt == s ==>
                  verdict == if StudentBusy(db, student, s, s + dur) then Err(SlotTaken) else Ok(q.slots[i].price))
  {
    hide Bookable, TeacherBusy, StudentBusy, RunStart;
    var spans, dur := db.teachers[teacher].spans, q.durationMinutes * MINUTE;
    ListingAgreesWithRecheck(spans, [], q.from, q.to, dur, now, s);
    assert Fetch([], q.from, q.to) == [] && Fetch([], s, s + dur) == [];
    forall i | 0 <= i < |q.slots| && q.slots[i].startAt == s ensures HasStart(q.slots, s) {
    }
  }

  // --- a cancelled lesson frees its time -------------------------------------------------

  /** Once a booking is cancelled, nothing of its teacher's or its student's is left on its time. */
  lemma CancelledTimeIsFree(before: Db, after: Db, id: Id)
    requires NoDoubleBooking(before) && BookingsAdvance(before, after) && after.bookings.Keys == before.bookings.Keys
    requires id in before.bookings && Live(before.bookings[id]) && !Live(after.bookings[id])
    ensures var b := before.bookings[id];
            !TeacherBusy(after, b.teacher, b.startAt, b.endAt) && !StudentBusy(after, b.student, b.startAt, b.endAt)
  {
    var b := before.bookings[id];
    forall k | k in after.bookings && Clash(after.bookings[k], b.startAt, b.endAt)
      ensures after.bookings[k].teacher != b.teacher && after.bookings[k].student != b.student
    {
      assert k != id && Advances(before.bookings[k], after.bookings[k]);
      assert Collide(before.bookings[k], b);
    }
  }

  /** The calls that can cancel booking `id`. */
  predicate Cancels(c: Call, id: Id) {
    match c
    case CallCancel(_, b) => b == id
    case CallForceCancel(b, _) => b == id
    case CallNoShow(_, b, party, _) => b == id && party == TeacherMissed
    case _ => false
  }

  lemma CancelKeepsTeachers(w: World, clearingDays: nat, now: int, c: Call, id: Id)
    requires Cancels(c, id)
    ensures BookingRules.Next(w, clearingDays, now, c).db.teachers == w.db.teachers
  {
    hide DoCancel, CaptureAndFinish;
  }

  /** The re-check of a start that was accepted once is repeated with the same result until it begins. */
  lemma AcceptedUntilItStarts(spans: seq<AvailabilitySpan>, s: int, dur: int, now: int, later: int)
    requires Accepts(spans, [], s, dur, now) && later < s
    ensures Accepts(spans, [], s, dur, later)
  {
  }

  /**
    A lesson that was booked, possibly long ago, and is now cancelled, by a participant, an
    operator or a teacher's no-show, can be booked again while its start is in the future and
    the teacher's row is as it was: by the same student, and by anyone else who is free and
    not the teacher.
  */
  lemma FreedStartIsBookable(w: World, clearingDays: nat, booked: int, student: Id, input: CreateInput, id: Id,
                             intentFails: bool, calls: seq<Timed>, cancelled: int, c: Call, later: int, other: Id)
    requires Joint(w) && NoDoubleBooking(w.db) && id !in w.db.bookings && id != NIL_ID
    requires Create(w, booked, student, input, id, intentFails).1.Ok?
    requires Cancels(c, id)
    requires var u := RunCalls(Create(w, booked, student, input, id, intentFails).0, clearingDays, calls);
             && input.teacher in u.db.teachers && u.db.teachers[input.teacher] == w.db.teachers[input.teacher]
             && id in u.db.bookings && Live(u.db.bookings[id])
             && var v := BookingRules.Next(u, clearingDays, cancelled, c);
                id in v.db.bookings && !Live(v.db.bookings[id])
    requires later < input.startAt
    ensures var u := RunCalls(Create(w, booked, student, input, id, intentFails).0, clearingDays, calls);
            var v := BookingRules.Next(u, clearingDays, cancelled, c);
            var end := input.startAt + LessonMinutes(input) * MINUTE;
            && CreateVerdict(v.db, later, student, input).Ok?
            && (OwnerOf(v.db, v.db.bookings[id]) != other && !StudentBusy(v.db, other, input.startAt, end) ==>
                  CreateVerdict(v.db, later, other, input).Ok?)
  {
    hide Joint, NoDoubleBooking, RunCalls, BookingRules.Next, Bookable, TeacherBusy, StudentBusy, BookingsAdvance;
    var made := Create(w, booked, student, input, id, intentFails).0;
    CreateKeeps(w, booked, student, input, id, intentFails);
    CreateKeepsCalendar(w, booked, student, input, id, intentFails);
    RunKeeps(made, clearingDays, calls);
    RunNeverDoubleBooks(made, clearingDays, calls);
    var u := RunCalls(made, clearingDays, calls);
    var v := BookingRules.Next(u, clearingDays, cancelled, c);
    AdvanceHolds(made.db, u.db, id);
    CallKeeps(u, clearingDays, cancelled, c);
    AdvanceHolds(u.db, v.db, id);
    OnlyCreateAdds(u, clearingDays, cancelled, c);
    CancelKeepsTeachers(u, clearingDays, cancelled, c, id);
    CancelledTimeIsFree(u.db, v.db, id);
    AcceptedUntilItStarts(w.db.teachers[input.teacher].spans, input.startAt, LessonMinutes(input) * MINUTE, booked, later);
  }
}
