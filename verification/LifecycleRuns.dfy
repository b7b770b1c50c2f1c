/**
  The joint lifecycle over whole runs of service calls, including calls that stop
  between the capture and the status write (backend/internal/bookings/service.go).
*/
module LifecycleRuns {
  import opened Options
  import opened Tables
  import opened Webhooks
  import opened WebhookSafety
  import opened Money
  import opened Payouts
  import opened BookingRules
  import opened Lifecycle
  import opened SlotTheorems

  // --- what a call may do to a booking row -----------------------------------------------

  predicate MayBecome(before: BookingStatus, after: BookingStatus) {
    || before == after
    || before == PendingPayment
    || (before == Confirmed && (after == Completed || after == Cancelled))
  }

  /** Bookings stay, keep who, when and how much, and move only forward; the two end states are final. */
  ghost predicate BookingsAdvance(before: Db, after: Db) {
    forall b :: b in before.bookings ==> b in after.bookings && Advances(before.bookings[b], after.bookings[b])
  }

  predicate Advances(x: Booking, y: Booking) {
    && MayBecome(x.status, y.status)
    && y.teacher == x.teacher && y.student == x.student && y.startAt == x.startAt && y.endAt == x.endAt
    && y.isTrial == x.isTrial && y.price == x.price
    && (x.status == Completed || x.status == Cancelled ==> y == x)
  }

  lemma AdvanceSame(x: Db)
    ensures BookingsAdvance(x, x)
  {
  }

  lemma OneAdvances(before: Db, after: Db, id: Id)
    requires id in before.bookings && id in after.bookings
    requires after.bookings == before.bookings[id := after.bookings[id]]
    requires Advances(before.bookings[id], after.bookings[id])
    ensures BookingsAdvance(before, after)
  {
  }

  lemma AdvanceChains(x: Db, y: Db, z: Db)
    requires BookingsAdvance(x, y) && BookingsAdvance(y, z)
    ensures BookingsAdvance(x, z)
  {
  }

  /** Rewriting one booking row, with the money left alone. */
  lemma BookingWriteKeeps(w: World, b: Id, row: Booking)
    requires Joint(w) && b in w.db.bookings
    requires Advances(w.db.bookings[b], row)
    requires BookingFits(SetBooking(w.db, b, row), b)
    ensures Joint(w.(db := SetBooking(w.db, b, row)))
    ensures BookingsAdvance(w.db, SetBooking(w.db, b, row))
  {
    hide LedgerSound, ProviderFits, BookingFits;
    var v := w.(db := SetBooking(w.db, b, row));
    BookingWriteSound(w.db, v.db.bookings);
    assert b in w.db.payments ==> PaymentFits(w, b);
    hide Joint;
    SameProvider(w, v);
    OneBookingMoves(w, v, b);
  }

  lemma SameProvider(w: World, v: World)
    requires ProviderFits(w) && v.fake == w.fake && v.db.events == w.db.events
    ensures ProviderFits(v)
  {
  }

  // --- each call ----------------------------------------------------------------------

  lemma InsertKeeps(w: World, id: Id, row: Booking)
    requires Joint(w) && id !in w.db.bookings && id != NIL_ID && row.status == PendingPayment
    ensures id !in w.db.payments
    ensures Joint(w.(db := SetBooking(w.db, id, row)))
    ensures BookingsAdvance(w.db, SetBooking(w.db, id, row))
  {
    var inserted := w.(db := SetBooking(w.db, id, row));
    assert id !in w.db.payments && id !in w.db.ledger;
    BookingWriteSound(w.db, inserted.db.bookings);
    OneBookingMoves(w, inserted, id);
  }

  lemma CreateKeeps(w: World, now: int, student: Id, input: CreateInput, id: Id, intentFails: bool)
    requires Joint(w) && id !in w.db.bookings && id != NIL_ID
    ensures var v := Create(w, now, student, input, id, intentFails).0;
            Joint(v) && BookingsAdvance(w.db, v.db) && v.db.ledger == w.db.ledger
  {
    hide Joint, CreateVerdict, LedgerSound;
    var verdict := CreateVerdict(w.db, now, student, input);
    if verdict.Ok? {
      var row := NewBooking(student, input, verdict.value);
      InsertKeeps(w, id, row);
      IntentKeeps(w.(db := SetBooking(w.db, id, row)), id);
    }
  }

  lemma IntentKeeps(w: World, id: Id)
    requires Joint(w) && id in w.db.bookings && id !in w.db.payments
    requires w.db.bookings[id].status == PendingPayment
    ensures Joint(w.(db := OpenIntent(w.db, id, w.db.bookings[id].price)))
  {
    hide Joint, LedgerSound;
    var v := w.(db := OpenIntent(w.db, id, w.db.bookings[id].price));
    JointParts(w, id);
    IntentSound(w.db, id, w.db.bookings[id].price);
    OneBookingMoves(w, v, id);
  }

  /** What the invariant says of the tables as a whole and of a booking without a payment. */
  lemma JointParts(w: World, id: Id)
    requires Joint(w) && id in w.db.bookings && id !in w.db.payments
    ensures LedgerSound(w.db) && ProviderFits(w) && id != NIL_ID && id !in w.db.ledger && BookingFits(w.db, id)
  {
  }

  lemma PayKeeps(w: World, clearingDays: nat, now: int, caller: Id, id: Id, token: string)
    requires Joint(w)
    ensures var v := Pay(w, clearingDays, now, caller, id, token).0;
            Joint(v) && BookingsAdvance(w.db, v.db)
  {
    hide Joint, LedgerSound, Authorize, BookingsAdvance;
    AdvanceSame(w.db);
    if id in w.db.bookings && w.db.bookings[id].status == PendingPayment {
      var trimmed := Text.TrimSpace(token);
      AuthorizeKeeps(w, clearingDays, now, id, trimmed);
      OneAdvances(w.db, Authorize(w, clearingDays, now, id, trimmed).0.db, id);
    }
  }

  lemma FinishKeeps(w: World, id: Id, noShow: NoShowParty, fault: Fault)
    requires Joint(w) && id in w.db.bookings && w.db.bookings[id].status == Confirmed
    requires id in w.db.payments && w.db.payments[id].status == Captured && id in w.db.ledger
    ensures var v := FinishLesson(w, id, noShow, fault).0;
            && Joint(v) && BookingsAdvance(w.db, v.db)
            && v.db == w.db.(bookings := v.db.bookings)
  {
    hide Joint, LedgerSound;
    var b := w.db.bookings[id];
    var marked := if noShow == NobodyMissed then b else b.(noShow := noShow);
    BookingWriteKeeps(w, id, marked);
    BookingWriteKeeps(w, id, marked.(status := Completed));
  }

  lemma CaptureAndFinishKeeps(w: World, clearingDays: nat, now: int, id: Id, noShow: NoShowParty, fault: Fault)
    requires Joint(w) && id in w.db.bookings && w.db.bookings[id].status == Confirmed
    ensures var v := CaptureAndFinish(w, clearingDays, now, id, noShow, fault).0;
            Joint(v) && BookingsAdvance(w.db, v.db)
  {
    hide Joint, LedgerSound, Capture, FinishLesson;
    var (captured, err) := Capture(w, clearingDays, now, id);
    CaptureKeeps(w, clearingDays, now, id);
    if err == None {
      FinishKeeps(captured, id, noShow, fault);
    }
  }

  lemma DoCancelKeeps(w: World, clearingDays: nat, now: int, id: Id, who: Canceller, refund: bool)
    requires Joint(w) && id in w.db.bookings && Cancellable(w.db.bookings[id])
    ensures var v := DoCancel(w, clearingDays, now, id, who, refund);
            && Joint(v) && BookingsAdvance(w.db, v.db)
            && v.db.bookings == w.db.bookings[id := w.db.bookings[id].(status := Cancelled, cancelledBy := who)]
            && v.db.teachers == w.db.teachers
  {
    hide Joint, LedgerSound, Refund;
    var row := w.db.bookings[id].(status := Cancelled, cancelledBy := who);
    BookingWriteKeeps(w, id, row);
    RefundKeeps(w.(db := SetBooking(w.db, id, row)), clearingDays, now, id);
  }

  lemma NoShowKeeps(w: World, clearingDays: nat, now: int, caller: Id, id: Id, party: NoShowParty, fault: Fault)
    requires Joint(w)
    ensures var v := NoShow(w, clearingDays, now, caller, id, party, fault).0;
            Joint(v) && BookingsAdvance(w.db, v.db)
  {
    hide Joint, LedgerSound, DoCancel, CaptureAndFinish;
    if id in w.db.bookings && w.db.bookings[id].status == Confirmed {
      if party == StudentMissed {
        CaptureAndFinishKeeps(w, clearingDays, now, id, StudentMissed, fault);
      } else {
        JointAt(w, id);
        var marked := w.(db := SetBooking(w.db, id, w.db.bookings[id].(noShow := TeacherMissed)));
        BookingWriteKeeps(w, id, w.db.bookings[id].(noShow := TeacherMissed));
        DoCancelKeeps(marked, clearingDays, now, id, ByTeacher, true);
        AdvanceChains(w.db, marked.db, DoCancel(marked, clearingDays, now, id, ByTeacher, true).db);
      }
    }
  }

  /** A payout run turns open rows into paid ones and touches nothing else but the batches. */
  lemma PayoutMovesRows(db: Db, admin: Id, batch: Id, now: int)
    ensures var after := SoloRun(db, admin, batch, now);
            && after == db.(ledger := after.ledger, batches := after.batches)
            && after.ledger.Keys == db.ledger.Keys
            && (forall b :: b in db.ledger ==>
                  after.ledger[b] == db.ledger[b] || (IsOpen(db.ledger[b]) && after.ledger[b].state == Paid))
  {
  }

  lemma PayoutKeeps(w: World, admin: Id, batch: Id, now: int)
    requires Joint(w) && batch !in w.db.batches
    ensures Joint(w.(db := SoloRun(w.db, admin, batch, now)))
    ensures SoloRun(w.db, admin, batch, now).bookings == w.db.bookings
  {
    hide LedgerSound, SoloRun;
    var v := w.(db := SoloRun(w.db, admin, batch, now));
    PayoutSound(w.db, admin, batch, now);
    PayoutMovesRows(w.db, admin, batch, now);
    forall b | b in v.db.payments ensures b in v.db.bookings && PaymentFits(v, b) { PaymentAt(w, b); }
    forall b | b in v.db.bookings ensures BookingFits(v.db, b) { assert BookingFits(w.db, b); }
  }

  lemma TeacherWriteKeeps(w: World, id: Id, t: Teacher)
    requires Joint(w)
    ensures Joint(w.(db := w.db.(teachers := w.db.teachers[id := t])))
  {
    var v := w.(db := w.db.(teachers := w.db.teachers[id := t]));
    forall b | b in v.db.payments ensures PaymentFits(v, b) { assert PaymentFits(w, b); }
    forall b | b in v.db.bookings ensures BookingFits(v.db, b) { assert BookingFits(w.db, b); }
  }

  lemma CallKeeps(w: World, clearingDays: nat, now: int, c: Call)
    requires Joint(w) && Possible(w, c)
    ensures var v := BookingRules.Next(w, clearingDays, now, c);
            Joint(v) && BookingsAdvance(w.db, v.db)
  {
    hide Joint, LedgerSound, CaptureAndFinish, DoCancel, Refund, Create, NoShow, Pay;
    match c
    case CallCreate(student, input, id, fails) => CreateKeeps(w, now, student, input, id, fails);
    case CallPay(caller, id, token) => PayKeeps(w, clearingDays, now, caller, id, token);
    case CallComplete(caller, id, fault) =>
      if id in w.db.bookings && w.db.bookings[id].status == Confirmed {
        CaptureAndFinishKeeps(w, clearingDays, now, id, NobodyMissed, fault);
      }
    case CallCancel(caller, id) =>
      if id in w.db.bookings && Cancellable(w.db.bookings[id]) {
        DoCancelKeeps(w, clearingDays, now, id, CancellerFor(w.db.bookings[id], caller), true);
      }
    case CallForceCancel(id, refund) =>
      if id in w.db.bookings && Cancellable(w.db.bookings[id]) {
        DoCancelKeeps(w, clearingDays, now, id, ByAdmin, refund);
      }
    case CallAdminRefund(id) =>
      if id in w.db.bookings { RefundKeeps(w, clearingDays, now, id); }
    case CallNoShow(caller, id, party, fault) => NoShowKeeps(w, clearingDays, now, caller, id, party, fault);
    case CallPayout(admin, batch) => PayoutKeeps(w, admin, batch, now);
    case SetTeacher(id, t) => TeacherWriteKeeps(w, id, t);
  }

  // --- whole runs --------------------------------------------------------------------

  lemma EmptyWorldJoint()
    ensures Joint(EMPTY_WORLD)
  {
  }

  /** The joint invariant holds after every run, and bookings only ever advance. */
  lemma {:induction false} RunKeeps(w: World, clearingDays: nat, calls: seq<Timed>)
    requires Joint(w)
    ensures Joint(RunCalls(w, clearingDays, calls))
    ensures BookingsAdvance(w.db, RunCalls(w, clearingDays, calls).db)
    decreases |calls|
  {
    hide Joint, LedgerSound, BookingRules.Next, BookingsAdvance;
    AdvanceSame(w.db);
    if calls != [] {
      var c := calls[0];
      var v := if Possible(w, c.call) then BookingRules.Next(w, clearingDays, c.now, c.call) else w;
      if Possible(w, c.call) { CallKeeps(w, clearingDays, c.now, c.call); }
      RunKeeps(v, clearingDays, calls[1..]);
      AdvanceChains(w.db, v.db, RunCalls(w, clearingDays, calls).db);
    }
  }

  /** The lifecycle table, spelled out for every booking of every reachable state. */
  lemma LifecycleTable(clearingDays: nat, calls: seq<Timed>, b: Id)
    requires b in RunCalls(EMPTY_WORLD, clearingDays, calls).db.bookings
    ensures var db := RunCalls(EMPTY_WORLD, clearingDays, calls).db;
            var status := db.bookings[b].status;
            && (status == PendingPayment ==>
                  b !in db.ledger && (b in db.payments ==> db.payments[b].status in {RequiresPayment, Failed}))
            && (status == Confirmed ==> b in db.payments && db.payments[b].status in {Authorized, Captured, Refunded})
            && (status == Completed ==> b in db.ledger && b in db.payments && db.payments[b].status in {Captured, Refunded})
            && (b in db.ledger && db.ledger[b].state == Held ==> b in db.payments && db.payments[b].status == Captured)
            && (b in db.ledger && db.ledger[b].state == Reversed ==> b in db.payments && db.payments[b].status == Refunded)
  {
    hide Joint, LedgerSound, RunCalls;
    EmptyWorldJoint();
    RunKeeps(EMPTY_WORLD, clearingDays, calls);
    JointAt(RunCalls(EMPTY_WORLD, clearingDays, calls), b);
  }

  /** One price: booking, intent and ledger row carry the same amount, now and after any further run. */
  lemma PriceEndToEnd(clearingDays: nat, calls: seq<Timed>, later: seq<Timed>, b: Id)
    requires b in RunCalls(EMPTY_WORLD, clearingDays, calls).db.bookings
    ensures var w := RunCalls(EMPTY_WORLD, clearingDays, calls);
            var price := w.db.bookings[b].price;
            var v := RunCalls(w, clearingDays, later);
            && b in v.db.bookings && v.db.bookings[b].price == price
            && (b in v.db.payments ==> v.db.payments[b].amount == price)
            && (b in v.db.ledger ==> v.db.ledger[b].amount == price)
  {
    hide Joint, LedgerSound, RunCalls;
    EmptyWorldJoint();
    RunKeeps(EMPTY_WORLD, clearingDays, calls);
    var w := RunCalls(EMPTY_WORLD, clearingDays, calls);
    RunKeeps(w, clearingDays, later);
    var v := RunCalls(w, clearingDays, later);
    assert Advances(w.db.bookings[b], v.db.bookings[b]);
    JointAt(v, b);
    if b in v.db.ledger { RowCopiesPayment(v, b); }
  }

  lemma RowCopiesPayment(w: World, b: Id)
    requires Joint(w) && b in w.db.ledger
    ensures b in w.db.payments && b in w.db.bookings
    ensures w.db.ledger[b].amount == w.db.payments[b].amount
    ensures w.db.ledger[b].teacher == w.db.bookings[b].teacher
  {
  }

  /** A freshly created paid lesson costs the hourly rate for its length, which is what the listing showed. */
  lemma CreatedAtListedPrice(w: World, now: int, student: Id, input: CreateInput, id: Id)
    requires !input.isTrial && input.durationMinutes >= 0
    requires Create(w, now, student, input, id, false).1.Ok? && id !in w.db.payments
    ensures var v := Create(w, now, student, input, id, false).0;
            var rate := w.db.teachers[input.teacher].pricePerHour;
            && id in v.db.bookings && id in v.db.payments
            && v.db.bookings[id].price == v.db.payments[id].amount == HourlyPrice(rate, input.durationMinutes)
            && -30 < 60 * v.db.bookings[id].price - rate * input.durationMinutes <= 30
  {
  }

  // --- stopping and retrying -----------------------------------------------------------

  /** When a lesson's capture goes through. */
  predicate CaptureSucceeds(w: World, id: Id) {
    && id in w.db.payments
    && var p := w.db.payments[id];
       || p.status == Captured
       || (p.status == Authorized && p.ref in w.fake.tokenByRef
           && !(w.fake.tokenByRef[p.ref] == PM_CAPTURE_FAIL && p.ref !in w.fake.captureTried))
  }

  lemma CaptureOutcome(w: World, clearingDays: nat, now: int, id: Id)
    requires Joint(w) && id in w.db.bookings && w.db.bookings[id].status == Confirmed
    ensures Capture(w, clearingDays, now, id).1 == None <==> CaptureSucceeds(w, id)
  {
  }

  /** Exactly when `Complete` succeeds in a reachable state, and what it leaves. */
  lemma CompleteOutcome(w: World, clearingDays: nat, now: int, caller: Id, id: Id, fault: Fault)
    requires Joint(w)
    ensures var (v, err) := Complete(w, clearingDays, now, caller, id, fault);
            && (err == None <==>
                  && id in w.db.bookings && OwnsLesson(w.db, w.db.bookings[id], caller)
                  && w.db.bookings[id].status == Confirmed && now > w.db.bookings[id].endAt
                  && CaptureSucceeds(w, id) && fault != StatusWriteFails)
            && (err == None ==>
                  && v.db.bookings == w.db.bookings[id := w.db.bookings[id].(status := Completed)]
                  && id in v.db.payments && v.db.payments[id].status == Captured
                  && id in v.db.ledger && v.db.ledger[id].amount == w.db.bookings[id].price
                  && v.db.ledger[id].teacher == w.db.bookings[id].teacher)
  {
    hide Joint, LedgerSound, Capture, CaptureSucceeds;
    if id in w.db.bookings && w.db.bookings[id].status == Confirmed {
      CaptureOutcome(w, clearingDays, now, id);
      CaptureKeeps(w, clearingDays, now, id);
      var captured := Capture(w, clearingDays, now, id).0;
      if id in captured.db.ledger {
        JointAt(captured, id);
        RowCopiesPayment(captured, id);
      }
    }
  }

  /** Every call that stopped after its capture leaves exactly this behind. */
  lemma StoppedComplete(w: World, clearingDays: nat, now: int, caller: Id, id: Id)
    requires Joint(w)
    requires Complete(w, clearingDays, now, caller, id, NoFault).1 == None
    ensures var (v, err) := Complete(w, clearingDays, now, caller, id, StatusWriteFails);
            && err == Some(WriteFailed) && Joint(v)
            && v == Capture(w, clearingDays, now, id).0
            && v.db.bookings == w.db.bookings && v.db.teachers == w.db.teachers
            && v.db.payments[id].status == Captured && id in v.db.ledger
  {
    hide Joint, LedgerSound, Capture;
    CaptureKeeps(w, clearingDays, now, id);
    var captured := Capture(w, clearingDays, now, id).0;
    RewriteSame(captured.db, id);
  }

  /**
    A `Complete` that stopped after the capture and is retried later leaves the tables
    exactly as one that never stopped: one completed booking, one ledger row.
  */
  lemma RetryAfterStop(w: World, clearingDays: nat, now: int, later: int, caller: Id, id: Id)
    requires Joint(w) && now <= later
    requires Complete(w, clearingDays, now, caller, id, NoFault).1 == None
    ensures var stopped := Complete(w, clearingDays, now, caller, id, StatusWriteFails).0;
            var (v, err) := Complete(stopped, clearingDays, later, caller, id, NoFault);
            && err == None
            && v == Complete(w, clearingDays, now, caller, id, NoFault).0
            && v.db.ledger == stopped.db.ledger && id in v.db.ledger
  {
    StoppedComplete(w, clearingDays, now, caller, id);
    CompleteOutcome(w, clearingDays, now, caller, id, NoFault);
    CaptureKeeps(w, clearingDays, now, id);
  }

  lemma AdvanceHolds(before: Db, after: Db, id: Id)
    requires BookingsAdvance(before, after) && id in before.bookings
    ensures id in after.bookings && Advances(before.bookings[id], after.bookings[id])
  {
  }

  /** The card that fails its first capture: refused once with nothing changed, then completed. */
  lemma FirstCaptureFails(w: World, clearingDays: nat, now: int, later: int, caller: Id, id: Id)
    requires Joint(w) && now <= later
    requires id in w.db.bookings && OwnsLesson(w.db, w.db.bookings[id], caller)
    requires w.db.bookings[id].status == Confirmed && now > w.db.bookings[id].endAt
    requires w.db.payments[id].status == Authorized && w.db.payments[id].ref !in w.fake.captureTried
    requires w.db.payments[id].ref in w.fake.tokenByRef && w.fake.tokenByRef[w.db.payments[id].ref] == PM_CAPTURE_FAIL
    ensures var (refused, err) := Complete(w, clearingDays, now, caller, id, NoFault);
            && err == Some(CaptureFailed) && refused.db == w.db
            && Complete(refused, clearingDays, later, caller, id, NoFault).1 == None
  {
    assert PaymentFits(w, id);
    var refused := Complete(w, clearingDays, now, caller, id, NoFault).0;
    CaptureAndFinishKeeps(w, clearingDays, now, id, NobodyMissed, NoFault);
    CompleteOutcome(refused, clearingDays, later, caller, id, NoFault);
  }
}
