/**
  What each booking call answers when it refuses: the first requirement that fails, said in
  terms of the rows alone, and what the refusal leaves behind
  (backend/internal/bookings/service.go, backend/internal/payments/service.go).
*/
module Refusals {
  import opened Options
  import opened UtcClock
  import opened Projection
  import opened Slots
  import opened SlotTheorems
  import opened Tables
  import opened Webhooks
  import opened WebhookSafety
  import opened Money
  import opened BookingRules
  import opened Lifecycle
  import opened LifecycleRuns
  import opened CallOutcomes
  import Text

  /** The caller's account owns the teacher profile of the booking. */
  predicate Teaches(db: Db, b: Booking, caller: Id) {
    caller != NIL_ID && b.teacher in db.teachers && db.teachers[b.teacher].owner == caller
  }

  // --- create ---------------------------------------------------------------------------------

  /** The lesson `Create` is asked for fits the teacher's open time and half-hour grid. */
  ghost predicate FitsWeek(spans: seq<AvailabilitySpan>, s: int, e: int) {
    && (forall t :: s <= t < e ==> OpenAt(spans, t))
    && exists a :: BeginsRun(spans, s, a, s) && (s - a) % (30 * MINUTE) == 0
  }

  lemma FitsWeekMeansAccepted(spans: seq<AvailabilitySpan>, s: int, dur: int, now: int)
    requires ValidSpans(spans) && now < s
    ensures FitsWeek(spans, s, s + dur) <==> Accepts(spans, [], s, dur, now)
  {
    BookableCountedOut(spans, [], s, s + dur, dur, now, s);
  }

  /** Why `Create` refuses, in order, and nothing changes. */
  lemma CreateRefusals(w: World, now: int, student: Id, input: CreateInput, id: Id, intentFails: bool)
    requires input.teacher in w.db.teachers ==> ValidSpans(w.db.teachers[input.teacher].spans)
    ensures var (v, r) := Create(w, now, student, input, id, intentFails);
            var s, e := input.startAt, input.startAt + (if input.isTrial then 30 else input.durationMinutes) * MINUTE;
            && (r.Err? ==> v == w)
            && if input.teacher !in w.db.teachers then r == Err(TeacherNotFound)
               else
                 var t := w.db.teachers[input.teacher];
                 if t.owner == student && student != NIL_ID then r == Err(CannotBookSelf)
                 else if (if input.isTrial then t.trialPrice.None? else input.durationMinutes !in {30, 60, 90, 120}) || s <= now
                 then r == Err(Invalid)
                 else if !FitsWeek(t.spans, s, e) || !TeacherFree(w.db, input.teacher, s, e)
                 then r == Err(SlotUnavailable)
                 else if !StudentFree(w.db, student, s, e) then r == Err(SlotTaken)
                 else r == Ok(id)
  {
    hide Accepts, FitsWeek, TeacherFree, StudentFree, TeacherBusy, StudentBusy, HourlyPrice;
    if input.teacher in w.db.teachers {
      var s, minutes := input.startAt, LessonMinutes(input);
      FreeMeansNotBusy(w.db, input.teacher, student, s, s + minutes * MINUTE);
      if now < s {
        FitsWeekMeansAccepted(w.db.teachers[input.teacher].spans, s, minutes * MINUTE, now);
      }
    }
  }

  // --- pay -------------------------------------------------------------------------------------

  /**
    Why paying refuses, in order.  Only a decline writes anything: the intent is marked failed
    with the card's message, the first time it is reported.
  */
  lemma PayRefusals(w: World, clearingDays: nat, now: int, caller: Id, id: Id, token: string)
    requires Joint(w)
    ensures var (v, err) := Pay(w, clearingDays, now, caller, id, token);
            && err == (if id !in w.db.bookings then Some(BookingNotFound)
                       else if w.db.bookings[id].student != caller then Some(NotStudent)
                       else if w.db.bookings[id].status in {Confirmed, Completed} then Some(AlreadyPaid)
                       else if w.db.bookings[id].status == Cancelled then Some(InvalidTransition)
                       else if id !in w.db.payments then Some(PaymentRequired)
                       else if Text.TrimSpace(token) == "pm_decline" then Some(PaymentFailed)
                       else None)
            && (err.Some? && err != Some(PaymentFailed) ==> v == w)
            && (err == Some(PaymentFailed) ==>
                  && v.fake == w.fake && v.db.bookings == w.db.bookings && v.db.ledger == w.db.ledger
                  && (if Stable(OfDecline(id), EvFailed) in w.db.events then v == w
                      else v.db.payments == w.db.payments[id := w.db.payments[id].(status := Failed, lastError := "the card was declined")]))
  {
    hide Joint, Authorize, Text.TrimSpace;
    if id in w.db.bookings && w.db.bookings[id].status == PendingPayment && w.db.bookings[id].student == caller {
      JointAt(w, id);
      if id !in w.db.payments {
        NoIntentNoPayment(w, clearingDays, now, id, token);
      } else if Text.TrimSpace(token) == "pm_decline" {
        DeclineWrites(w, clearingDays, now, id);
      } else {
        PayOutcome(w, clearingDays, now, caller, id, token);
      }
    }
  }

  /** What a declined card leaves. */
  lemma DeclineWrites(w: World, clearingDays: nat, now: int, id: Id)
    requires id in w.db.payments && id != NIL_ID && w.db.payments[id].status in {RequiresPayment, Failed}
    ensures var (v, err) := Authorize(w, clearingDays, now, id, "pm_decline");
            && err == Some(Declined)
            && v.fake == w.fake && v.db.bookings == w.db.bookings && v.db.ledger == w.db.ledger
            && (if Stable(OfDecline(id), EvFailed) in w.db.events then v == w
                else v.db.payments == w.db.payments[id := w.db.payments[id].(status := Failed, lastError := "the card was declined")])
  {
    hide ApplyEvent;
    EventOutcome(w.db, clearingDays, now, DeclineEvent(id));
  }

  // --- complete ----------------------------------------------------------------------------------

  /** The fake card that fails its first capture, not tried yet. */
  predicate FailsThisTime(w: World, p: Payment) {
    p.status == Authorized && p.ref in w.fake.tokenByRef && w.fake.tokenByRef[p.ref] == "pm_capture_fail"
    && p.ref !in w.fake.captureTried
  }

  /** What capturing a confirmed lesson answers in a reachable state. */
  lemma CaptureAnswers(w: World, clearingDays: nat, now: int, id: Id)
    requires Joint(w) && id in w.db.bookings && w.db.bookings[id].status == Confirmed
    ensures id in w.db.payments
    ensures var (v, err) := Capture(w, clearingDays, now, id);
            && err == (if w.db.payments[id].status == Refunded then Some(NotPayable)
                       else if FailsThisTime(w, w.db.payments[id]) then Some(CaptureFailed) else None)
            && (err.Some? ==> v.db == w.db)
  {
    hide Joint, LedgerSound, Emit;
    JointAt(w, id);
    CaptureKeeps(w, clearingDays, now, id);
    CaptureOutcome(w, clearingDays, now, id);
  }

  /** Why completing refuses, in order; the money moves only once every check before the capture has passed. */
  lemma CompleteRefusals(w: World, clearingDays: nat, now: int, caller: Id, id: Id, fault: Fault)
    requires Joint(w)
    ensures id in w.db.bookings && w.db.bookings[id].status == Confirmed ==> id in w.db.payments
    ensures var (v, err) := Complete(w, clearingDays, now, caller, id, fault);
            && err == (if id !in w.db.bookings then Some(BookingNotFound)
                       else if !Teaches(w.db, w.db.bookings[id], caller) then Some(NotTeacherOwner)
                       else if w.db.bookings[id].status != Confirmed then Some(InvalidTransition)
                       else if now <= w.db.bookings[id].endAt then Some(TooEarly)
                       else if w.db.payments[id].status == Refunded then Some(InvalidTransition)
                       else if FailsThisTime(w, w.db.payments[id]) then Some(CaptureFailed)
                       else if fault == StatusWriteFails then Some(WriteFailed)
                       else None)
            && (err.Some? && err != Some(WriteFailed) ==> v.db == w.db)
  {
    hide Joint, Capture, FailsThisTime;
    if id in w.db.bookings && w.db.bookings[id].status == Confirmed {
      CaptureAnswers(w, clearingDays, now, id);
    }
  }

  // --- cancel ------------------------------------------------------------------------------------

  /** Why a cancellation refuses; a participant is the student or the owner of the teacher profile. */
  lemma CancelRefusals(w: World, clearingDays: nat, now: int, caller: Id, id: Id, refund: bool)
    requires Joint(w)
    ensures Cancel(w, clearingDays, now, caller, id).1
         == (if id !in w.db.bookings then Some(BookingNotFound)
             else if w.db.bookings[id].student != caller && !Teaches(w.db, w.db.bookings[id], caller) then Some(Forbidden)
             else if w.db.bookings[id].status in {Cancelled, Completed} then Some(InvalidTransition)
             else None)
    ensures ForceCancel(w, clearingDays, now, id, refund).1
         == (if id !in w.db.bookings then Some(BookingNotFound)
             else if w.db.bookings[id].status in {Cancelled, Completed} then Some(InvalidTransition)
             else None)
    ensures BookingRules.AdminRefund(w, clearingDays, now, id).1
         == (if id !in w.db.bookings then Some(BookingNotFound) else None)
  {
    hide Joint, DoCancel, Refund;
    AdminRefundOutcome(w, clearingDays, now, id);
  }

  // --- no-show -------------------------------------------------------------------------------------

  /** Why a no-show report refuses, in order, and when money or the flag was written all the same. */
  lemma NoShowRefusals(w: World, clearingDays: nat, now: int, caller: Id, id: Id, party: NoShowParty, fault: Fault)
    requires Joint(w)
    ensures id in w.db.bookings && w.db.bookings[id].status == Confirmed ==> id in w.db.payments
    ensures var (v, err) := NoShow(w, clearingDays, now, caller, id, party, fault);
            && err == (if party == NobodyMissed then Some(Invalid)
                       else if id !in w.db.bookings then Some(BookingNotFound)
                       else if !Teaches(w.db, w.db.bookings[id], caller) then Some(NotTeacherOwner)
                       else if w.db.bookings[id].status != Confirmed then Some(InvalidTransition)
                       else if now <= w.db.bookings[id].startAt then Some(LessonNotStarted)
                       else if party == StudentMissed && w.db.payments[id].status == Refunded then Some(InvalidTransition)
                       else if party == StudentMissed && FailsThisTime(w, w.db.payments[id]) then Some(CaptureFailed)
                       else if fault != NoFault then Some(WriteFailed)
                       else None)
            && (err.Some? && err != Some(WriteFailed) ==> v.db == w.db)
            && (err == Some(WriteFailed) ==>
                  v.db.bookings == if fault == NoShowWriteFails then w.db.bookings
                                   else w.db.bookings[id := w.db.bookings[id].(noShow := party)])
  {
    hide Joint, Capture, FailsThisTime, DoCancel;
    if id in w.db.bookings && w.db.bookings[id].status == Confirmed {
      CaptureAnswers(w, clearingDays, now, id);
      CaptureKeeps(w, clearingDays, now, id);
    }
  }
}
