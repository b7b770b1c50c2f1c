/**
  Exactly when each booking call succeeds in a reachable state, and everything it then
  leaves behind in the booking, its payment and its ledger row
  (backend/internal/bookings/service.go, backend/internal/payments/service.go).
*/
module CallOutcomes {
  import opened Options
  import opened UtcClock
  import opened Projection
  import opened Slots
  import opened SlotTheorems
  import opened Tables
  import opened Webhooks
  import opened WebhookSafety
  import opened Money
  import opened BookingRules
  import opened Lifecycle
  import opened LifecycleRuns
  import Text

  /** No other booking's money moved. */
  ghost predicate OnlyMoneyOf(before: Db, after: Db, id: Id) {
    && (after.payments == before.payments
        || (id in after.payments && after.payments == before.payments[id := after.payments[id]]))
    && (after.ledger == before.ledger
        || (id in after.ledger && after.ledger == before.ledger[id := after.ledger[id]]))
    && after.batches == before.batches && after.teachers == before.teachers
  }

  lemma EmitTouchesOnly(w: World, clearingDays: nat, now: int, e: Event)
    ensures OnlyMoneyOf(w.db, Emit(w, clearingDays, now, e).0.db, e.payment)
  {
    hide Effect;
    if e.payment in w.db.payments {
      EffectIsLocal(Recorded(w.db, e), clearingDays, e, now);
    }
  }

  lemma CaptureTouchesOnly(w: World, clearingDays: nat, now: int, id: Id)
    requires Joint(w) && id in w.db.bookings
    ensures OnlyMoneyOf(w.db, Capture(w, clearingDays, now, id).0.db, id)
  {
    hide Joint, Emit;
    JointAt(w, id);
    if id in w.db.payments && w.db.payments[id].status == Authorized {
      var p := w.db.payments[id];
      var tried := w.(fake := w.fake.(captureTried := w.fake.captureTried + {p.ref}));
      EmitTouchesOnly(tried, clearingDays, now, RefEvent(p.ref.seqNo, EvCaptured, id));
    }
  }

  lemma RefundTouchesOnly(w: World, clearingDays: nat, now: int, id: Id)
    requires Joint(w) && id in w.db.bookings
    ensures OnlyMoneyOf(w.db, Refund(w, clearingDays, now, id).0.db, id)
  {
    hide Joint, Emit;
    JointAt(w, id);
    if id in w.db.payments {
      var p := w.db.payments[id];
      if p.status == Authorized || p.status == Captured {
        EmitTouchesOnly(w, clearingDays, now, RefEvent(p.ref.seqNo, EvRefunded, id));
      } else if p.status != Refunded {
        EmitTouchesOnly(w, clearingDays, now, VoidEvent(id));
      }
    }
  }

  lemma AuthorizeTouchesOnly(w: World, clearingDays: nat, now: int, id: Id, token: string)
    ensures OnlyMoneyOf(w.db, Authorize(w, clearingDays, now, id, token).0.db, id)
  {
    hide Emit;
    if token == PM_DECLINE {
      EmitTouchesOnly(w, clearingDays, now, DeclineEvent(id));
    } else {
      var handed := NextRef(w, id, token);
      EmitTouchesOnly(handed, clearingDays, now, RefEvent(handed.fake.seqNo, EvAuthorized, id));
    }
  }

  // --- create -------------------------------------------------------------------------------

  /** What the teacher must offer and the clock must allow for a lesson to be booked at all. */
  ghost predicate Offered(db: Db, now: int, input: CreateInput) {
    && input.teacher in db.teachers
    && var t := db.teachers[input.teacher];
       var s, e := input.startAt, input.startAt + (if input.isTrial then 30 else input.durationMinutes) * MINUTE;
       && (if input.isTrial then t.trialPrice.Some? else input.durationMinutes in {30, 60, 90, 120})
       && now < s
       && OpenThroughout(t.spans, s, e)
       && (s - RunStart(WeeklyOpen(t.spans), PadLo(s), s)) % STEP == 0
  }

  /** The lesson was called off, or ends before or begins after [s, e). */
  predicate Apart(b: Booking, s: int, e: int) {
    b.status == Cancelled || e <= b.startAt || b.endAt <= s
  }

  ghost predicate TeacherFree(db: Db, teacher: Id, s: int, e: int) {
    forall k :: k in db.bookings && db.bookings[k].teacher == teacher ==> Apart(db.bookings[k], s, e)
  }

  ghost predicate StudentFree(db: Db, student: Id, s: int, e: int) {
    forall k :: k in db.bookings && db.bookings[k].student == student ==> Apart(db.bookings[k], s, e)
  }

  lemma FreeMeansNotBusy(db: Db, teacher: Id, student: Id, s: int, e: int)
    ensures TeacherFree(db, teacher, s, e) <==> !TeacherBusy(db, teacher, s, e)
    ensures StudentFree(db, student, s, e) <==> !StudentBusy(db, student, s, e)
  {
  }

  /**
    Creating succeeds exactly for an offered lesson, asked for by somebody else, that collides
    with nobody; then one pending booking and its intent appear and nothing else changes.
  */
  lemma CreateOutcome(w: World, now: int, student: Id, input: CreateInput, id: Id, intentFails: bool)
    requires Joint(w) && id !in w.db.bookings
    ensures var (v, r) := Create(w, now, student, input, id, intentFails);
            var end := input.startAt + (if input.isTrial then 30 else input.durationMinutes) * MINUTE;
            && (r.Ok? <==>
                  && Offered(w.db, now, input)
                  && (w.db.teachers[input.teacher].owner == NIL_ID || w.db.teachers[input.teacher].owner != student)
                  && TeacherFree(w.db, input.teacher, input.startAt, end)
                  && StudentFree(w.db, student, input.startAt, end))
            && (r.Ok? ==>
                  && id in v.db.bookings
                  && var price := v.db.bookings[id].price;
                     && (if input.isTrial then w.db.teachers[input.teacher].trialPrice == Some(price)
                         else price == HourlyPrice(w.db.teachers[input.teacher].pricePerHour, input.durationMinutes))
                     && v == w.(db := w.db.(
                          bookings := w.db.bookings[id := Booking(input.teacher, student, input.startAt, end, input.isTrial, price,
                                                                  PendingPayment, NotCancelled, NobodyMissed)],
                          payments := if intentFails then w.db.payments
                                      else w.db.payments[id := Payment(RequiresPayment, NoRef, price, "", None, None, None)])))
            && (r.Err? ==> v == w)
  {
    hide LedgerSound, RunStart, WeeklyOpen, HourlyPrice, TeacherBusy, StudentBusy, TeacherFree, StudentFree;
    FreeMeansNotBusy(w.db, input.teacher, student, input.startAt, input.startAt + LessonMinutes(input) * MINUTE);
    assert id !in w.db.payments by { NoStrayPayment(w, id); }
    if input.teacher in w.db.teachers {
      var t := w.db.teachers[input.teacher];
      AcceptsMeans(t.spans, input.startAt, LessonMinutes(input) * MINUTE, now);
    }
  }

  lemma NoStrayPayment(w: World, id: Id)
    requires Joint(w) && id !in w.db.bookings
    ensures id !in w.db.payments
  {
  }

  lemma AcceptsMeans(spans: seq<AvailabilitySpan>, s: int, dur: int, now: int)
    ensures Accepts(spans, [], s, dur, now)
       <==> OpenThroughout(spans, s, s + dur) && (s - RunStart(WeeklyOpen(spans), PadLo(s), s)) % STEP == 0 && now <= s
  {
  }

  // --- pay --------------------------------------------------------------------------------

  /** Paying succeeds exactly for the student of a pending booking with an intent and a card that is not declined. */
  lemma PayOutcome(w: World, clearingDays: nat, now: int, caller: Id, id: Id, token: string)
    requires Joint(w)
    ensures var (v, err) := Pay(w, clearingDays, now, caller, id, token);
            && (err == None <==>
                  && id in w.db.bookings && w.db.bookings[id].student == caller
                  && w.db.bookings[id].status == PendingPayment
                  && id in w.db.payments && Text.TrimSpace(token) != "pm_decline")
            && (err == None ==>
                  && v.db.bookings == w.db.bookings[id := w.db.bookings[id].(status := Confirmed)]
                  && id in v.db.payments && v.db.payments[id].status == Authorized)
            && (err != None ==> v.db.bookings == w.db.bookings)
            && OnlyMoneyOf(w.db, v.db, id)
  {
    hide Joint, Authorize, Text.TrimSpace;
    if id in w.db.bookings && w.db.bookings[id].status == PendingPayment {
      AuthorizeKeeps(w, clearingDays, now, id, Text.TrimSpace(token));
      AuthorizeTouchesOnly(w, clearingDays, now, id, Text.TrimSpace(token));
    }
  }

  /** A booking whose intent was never stored cannot be paid, now or after any number of tries. */
  lemma NoIntentNoPayment(w: World, clearingDays: nat, now: int, id: Id, token: string)
    requires id in w.db.bookings && w.db.bookings[id].status == PendingPayment && id !in w.db.payments
    ensures Pay(w, clearingDays, now, w.db.bookings[id].student, id, token) == (w, Some(PaymentRequired))
  {
  }

  /**
    After an operator refund has voided an intent nobody held money on, paying succeeds
    exactly when the booking is still pending, the caller is its student and the token is
    not the declining one.
  */
  lemma PayAfterVoid(w: World, clearingDays: nat, now: int, later: int, caller: Id, id: Id, token: string)
    requires Joint(w)
    requires id in w.db.bookings && id in w.db.payments && !HoldsMoney(w.db.payments[id].status)
    ensures var voided := BookingRules.AdminRefund(w, clearingDays, now, id).0;
            Pay(voided, clearingDays, later, caller, id, token).1 == None
            <==> w.db.bookings[id].status == PendingPayment && w.db.bookings[id].student == caller
                 && Text.TrimSpace(token) != PM_DECLINE
  {
    hide Joint, Refund, Pay, Text.TrimSpace;
    RefundKeeps(w, clearingDays, now, id);
    RefundTouchesOnly(w, clearingDays, now, id);
    PayOutcome(BookingRules.AdminRefund(w, clearingDays, now, id).0, clearingDays, later, caller, id, token);
  }

  // --- cancel -------------------------------------------------------------------------------

  /** A refund that was asked for: money that was held or captured is back, and an open ledger row is reversed. */
  ghost predicate MoneyReturned(before: Db, after: Db, id: Id) {
    && OnlyMoneyOf(before, after, id)
    && (id in before.payments && HoldsMoney(before.payments[id].status) ==>
          id in after.payments && after.payments[id].status == Refunded)
    && (id in before.ledger && IsOpen(before.ledger[id]) ==> id in after.ledger && after.ledger[id].state == Reversed)
    && (id in before.ledger && before.ledger[id].state == Paid ==> after.ledger == before.ledger)
  }

  lemma DoCancelOutcome(w: World, clearingDays: nat, now: int, id: Id, who: Canceller, refund: bool)
    requires Joint(w) && id in w.db.bookings && Cancellable(w.db.bookings[id])
    ensures var v := DoCancel(w, clearingDays, now, id, who, refund);
            && v.db.bookings == w.db.bookings[id := w.db.bookings[id].(status := Cancelled, cancelledBy := who)]
            && (if refund then MoneyReturned(w.db, v.db, id)
                else v.db == w.db.(bookings := v.db.bookings) && v.fake == w.fake)
  {
    hide Joint, Refund;
    var row := w.db.bookings[id].(status := Cancelled, cancelledBy := who);
    BookingWriteKeeps(w, id, row);
    var cancelled := w.(db := SetBooking(w.db, id, row));
    RefundKeeps(cancelled, clearingDays, now, id);
    RefundTouchesOnly(cancelled, clearingDays, now, id);
  }

  /** Cancelling succeeds exactly for a participant of a pending or confirmed booking, names who did it and returns the money. */
  lemma CancelOutcome(w: World, clearingDays: nat, now: int, caller: Id, id: Id)
    requires Joint(w)
    ensures var (v, err) := Cancel(w, clearingDays, now, caller, id);
            && (err == None <==>
                  && id in w.db.bookings
                  && (w.db.bookings[id].student == caller || OwnsLesson(w.db, w.db.bookings[id], caller))
                  && w.db.bookings[id].status in {PendingPayment, Confirmed})
            && (err == None ==>
                  && v.db.bookings == w.db.bookings[id := w.db.bookings[id].(
                       status := Cancelled,
                       cancelledBy := if w.db.bookings[id].student == caller then ByStudent else ByTeacher)]
                  && MoneyReturned(w.db, v.db, id))
            && (err != None ==> v == w)
  {
    hide Joint, DoCancel, MoneyReturned;
    if id in w.db.bookings && Cancellable(w.db.bookings[id]) {
      DoCancelOutcome(w, clearingDays, now, id, CancellerFor(w.db.bookings[id], caller), true);
    }
  }

  /** A forced cancellation asks nobody; without `refund` no money moves at all. */
  lemma ForceCancelOutcome(w: World, clearingDays: nat, now: int, id: Id, refund: bool)
    requires Joint(w)
    ensures var (v, err) := ForceCancel(w, clearingDays, now, id, refund);
            && (err == None <==> id in w.db.bookings && w.db.bookings[id].status in {PendingPayment, Confirmed})
            && (err == None ==>
                  && v.db.bookings == w.db.bookings[id := w.db.bookings[id].(status := Cancelled, cancelledBy := ByAdmin)]
                  && (if refund then MoneyReturned(w.db, v.db, id) else v.db.payments == w.db.payments && v.db.ledger == w.db.ledger))
            && (err != None ==> v == w)
  {
    hide Joint, DoCancel, MoneyReturned;
    if id in w.db.bookings && Cancellable(w.db.bookings[id]) {
      DoCancelOutcome(w, clearingDays, now, id, ByAdmin, refund);
    }
  }

  /** An operator refund returns the money and leaves every booking row alone. */
  lemma AdminRefundOutcome(w: World, clearingDays: nat, now: int, id: Id)
    requires Joint(w)
    ensures var (v, err) := BookingRules.AdminRefund(w, clearingDays, now, id);
            && (err == None <==> id in w.db.bookings)
            && v.db.bookings == w.db.bookings
            && (err == None ==> MoneyReturned(w.db, v.db, id))
            && (err != None ==> v == w)
  {
    hide Joint, Refund;
    if id in w.db.bookings {
      RefundKeeps(w, clearingDays, now, id);
      RefundTouchesOnly(w, clearingDays, now, id);
    }
  }

  // --- no-show -------------------------------------------------------------------------------

  /** Who may report a no-show, and when. */
  predicate MayReport(w: World, now: int, caller: Id, id: Id) {
    && id in w.db.bookings && OwnsLesson(w.db, w.db.bookings[id], caller)
    && w.db.bookings[id].status == Confirmed && w.db.bookings[id].startAt < now
  }

  /** A missing student costs the lesson: captured, on the ledger, completed. */
  lemma StudentNoShowOutcome(w: World, clearingDays: nat, now: int, caller: Id, id: Id, fault: Fault)
    requires Joint(w)
    ensures var (v, err) := NoShow(w, clearingDays, now, caller, id, StudentMissed, fault);
            && (err == None <==> MayReport(w, now, caller, id) && CaptureSucceeds(w, id) && fault == NoFault)
            && (err == None ==>
                  && v.db.bookings == w.db.bookings[id := w.db.bookings[id].(status := Completed, noShow := StudentMissed)]
                  && v.db.payments[id].status == Captured && id in v.db.ledger
                  && OnlyMoneyOf(w.db, v.db, id))
  {
    hide Joint, Capture, CaptureSucceeds;
    if MayReport(w, now, caller, id) {
      CaptureOutcome(w, clearingDays, now, id);
      CaptureKeeps(w, clearingDays, now, id);
      CaptureTouchesOnly(w, clearingDays, now, id);
    }
  }

  /** A missing teacher costs the teacher: cancelled in their name, the student's money back. */
  lemma TeacherNoShowOutcome(w: World, clearingDays: nat, now: int, caller: Id, id: Id, fault: Fault)
    requires Joint(w)
    ensures var (v, err) := NoShow(w, clearingDays, now, caller, id, TeacherMissed, fault);
            && (err == None <==> MayReport(w, now, caller, id) && fault == NoFault)
            && (err == None ==>
                  && v.db.bookings == w.db.bookings[id := w.db.bookings[id].(
                       status := Cancelled, cancelledBy := ByTeacher, noShow := TeacherMissed)]
                  && MoneyReturned(w.db, v.db, id))
            && (err != None ==>
                  v == if MayReport(w, now, caller, id) && fault == StatusWriteFails
                       then w.(db := SetBooking(w.db, id, w.db.bookings[id].(noShow := TeacherMissed))) else w)
  {
    hide Joint, DoCancel, MoneyReturned;
    if MayReport(w, now, caller, id) {
      var row := w.db.bookings[id].(noShow := TeacherMissed);
      var marked := w.(db := SetBooking(w.db, id, row));
      JointAt(w, id);
      BookingWriteKeeps(w, id, row);
      DoCancelOutcome(marked, clearingDays, now, id, ByTeacher, true);
      SameMoney(w.db, marked.db, DoCancel(marked, clearingDays, now, id, ByTeacher, true).db, id);
    }
  }

  lemma SameMoney(before: Db, marked: Db, after: Db, id: Id)
    requires marked == before.(bookings := marked.bookings) && MoneyReturned(marked, after, id)
    ensures MoneyReturned(before, after, id)
  {
  }

  // --- one call, one booking --------------------------------------------------------------

  /** The booking a call is about. */
  function Target(c: Call): Option<Id> {
    match c
    case CallCreate(_, _, id, _) => Some(id)
    case CallPay(_, id, _) => Some(id)
    case CallComplete(_, id, _) => Some(id)
    case CallCancel(_, id) => Some(id)
    case CallForceCancel(id, _) => Some(id)
    case CallAdminRefund(id) => Some(id)
    case CallNoShow(_, id, _, _) => Some(id)
    case CallPayout(_, _) => None
    case SetTeacher(_, _) => None
  }

  /** No other booking, payment or ledger row is different. */
  ghost predicate OnlyOf(before: Db, after: Db, id: Id) {
    && OnlyMoneyOf(before, after, id)
    && (after.bookings == before.bookings
        || (id in after.bookings && after.bookings == before.bookings[id := after.bookings[id]]))
  }

  lemma CaptureAndFinishTouchesOnly(w: World, clearingDays: nat, now: int, id: Id, noShow: NoShowParty, fault: Fault)
    requires Joint(w) && id in w.db.bookings && w.db.bookings[id].status == Confirmed
    ensures OnlyOf(w.db, CaptureAndFinish(w, clearingDays, now, id, noShow, fault).0.db, id)
  {
    hide Joint, Capture;
    CaptureKeeps(w, clearingDays, now, id);
    CaptureTouchesOnly(w, clearingDays, now, id);
  }

  lemma DoCancelTouchesOnly(w: World, clearingDays: nat, now: int, id: Id, who: Canceller, refund: bool)
    requires Joint(w) && id in w.db.bookings && Cancellable(w.db.bookings[id])
    ensures OnlyOf(w.db, DoCancel(w, clearingDays, now, id, who, refund).db, id)
  {
    hide Joint, DoCancel;
    DoCancelOutcome(w, clearingDays, now, id, who, refund);
  }

  lemma NoShowTouchesOnly(w: World, clearingDays: nat, now: int, caller: Id, id: Id, party: NoShowParty, fault: Fault)
    requires Joint(w)
    ensures OnlyOf(w.db, NoShow(w, clearingDays, now, caller, id, party, fault).0.db, id)
  {
    hide Joint, DoCancel, CaptureAndFinish;
    if MayReport(w, now, caller, id) {
      if party == StudentMissed {
        CaptureAndFinishTouchesOnly(w, clearingDays, now, id, StudentMissed, fault);
      } else {
        hide NoShow;
        if party == TeacherMissed { TeacherNoShowOutcome(w, clearingDays, now, caller, id, fault); }
      }
    }
  }

  /** Every call about a booking leaves all others, their payments and their ledger rows alone. */
  lemma CallTouchesOnly(w: World, clearingDays: nat, now: int, c: Call)
    requires Joint(w) && Possible(w, c) && Target(c).Some?
    ensures OnlyOf(w.db, BookingRules.Next(w, clearingDays, now, c).db, Target(c).value)
  {
    hide Joint, CaptureAndFinish, DoCancel, Refund, Create, NoShow, Pay;
    match c
    case CallCreate(student, input, id, fails) => CreateOutcome(w, now, student, input, id, fails);
    case CallPay(caller, id, token) => PayOutcome(w, clearingDays, now, caller, id, token);
    case CallComplete(caller, id, fault) =>
      if id in w.db.bookings && w.db.bookings[id].status == Confirmed {
        CaptureAndFinishTouchesOnly(w, clearingDays, now, id, NobodyMissed, fault);
      }
    case CallCancel(caller, id) =>
      if id in w.db.bookings && Cancellable(w.db.bookings[id]) {
        DoCancelTouchesOnly(w, clearingDays, now, id, CancellerFor(w.db.bookings[id], caller), true);
      }
    case CallForceCancel(id, refund) =>
      if id in w.db.bookings && Cancellable(w.db.bookings[id]) {
        DoCancelTouchesOnly(w, clearingDays, now, id, ByAdmin, refund);
      }
    case CallAdminRefund(id) => AdminRefundOutcome(w, clearingDays, now, id);
    case CallNoShow(caller, id, party, fault) => NoShowTouchesOnly(w, clearingDays, now, caller, id, party, fault);
  }
}
