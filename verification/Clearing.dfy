/**
  The clearing window: captured money stays held for the configured days, counted from its
  own capture, and no payout run reaches it sooner
  (backend/internal/db/sqlc/payments.sql.go, payouts.sql.go, backend/internal/payments/payments.go).
*/
module Clearing {
  import opened Options
  import opened UtcClock
  import opened Tables
  import opened Payouts
  import opened LedgerViews
  import opened Webhooks
  import opened WebhookSafety
  import opened Money
  import opened BookingRules
  import opened Lifecycle
  import opened LifecycleRuns
  import Text

  /**
    A captured event that opens a ledger row leaves it held until the clearing days are
    over, and available to the next payout run from that instant on.
  */
  lemma CaptureHoldsTheMoney(db: Db, clearingDays: nat, now: int, e: Event, t: int)
    requires ApplyEvent(db, clearingDays, now, e).1 == Applied && e.kind == EvCaptured
    requires e.payment in db.bookings && e.payment !in db.ledger
    ensures var after := ApplyEvent(db, clearingDays, now, e).0;
            && e.payment in after.ledger
            && after.ledger[e.payment].teacher == db.bookings[e.payment].teacher
            && after.ledger[e.payment].amount == db.payments[e.payment].amount
            && after.payments[e.payment].capturedAt == Some(now)
            && StateAt(after.ledger[e.payment], t) == (if t < now + clearingDays * DAY then Held else Available)
            && (e.payment in Payable(after.ledger, t) <==> now + clearingDays * DAY <= t)
  {
  }

  /** Every ledger row's deadline is its payment's capture plus the clearing days. */
  ghost predicate Cleared(db: Db, clearingDays: nat) {
    forall b :: b in db.ledger ==> b in db.payments && DeadlineOf(db.payments[b], db.ledger[b], clearingDays)
  }

  predicate DeadlineOf(p: Payment, r: LedgerRow, clearingDays: nat) {
    p.capturedAt.Some? && r.availableAt == p.capturedAt.value + clearingDays * DAY
  }

  /** No row reads paid that did not before. */
  ghost predicate NothingPaid(before: Ledger, after: Ledger) {
    forall b :: b in after && after[b].state == Paid ==> b in before && before[b].state == Paid
  }

  /** Deadlines still match captures, and nothing was paid out. */
  ghost predicate Waits(before: Db, after: Db, clearingDays: nat) {
    (Cleared(before, clearingDays) ==> Cleared(after, clearingDays)) && NothingPaid(before.ledger, after.ledger)
  }

  lemma WaitsChains(a: Db, b: Db, c: Db, clearingDays: nat)
    requires Waits(a, b, clearingDays) && Waits(b, c, clearingDays)
    ensures Waits(a, c, clearingDays)
  {
    hide Cleared;
  }

  lemma SameMoneyWaits(before: Db, after: Db, clearingDays: nat)
    requires after.payments == before.payments && after.ledger == before.ledger
    ensures Waits(before, after, clearingDays)
  {
  }

  // --- the provider's events ---------------------------------------------------------------

  /** No event pays a row, and one that is not a second capture keeps every deadline with its capture. */
  lemma EffectWaits(db: Db, clearingDays: nat, now: int, e: Event)
    requires e.payment in db.payments
    requires e.kind == EvCaptured ==> e.payment !in db.ledger
    ensures Waits(db, Effect(db, clearingDays, now, e), clearingDays)
  {
  }

  lemma EmitWaits(w: World, clearingDays: nat, now: int, e: Event)
    requires e.kind == EvCaptured ==> e.payment !in w.db.ledger
    ensures Waits(w.db, Emit(w, clearingDays, now, e).0.db, clearingDays)
  {
    hide Waits, Effect;
    SameMoneyWaits(w.db, w.db, clearingDays);
    if e.payment in w.db.payments {
      var recorded := Recorded(w.db, e);
      SameMoneyWaits(w.db, recorded, clearingDays);
      EffectWaits(recorded, clearingDays, now, e);
      WaitsChains(w.db, recorded, Effect(recorded, clearingDays, now, e), clearingDays);
    }
  }

  // --- the money calls -----------------------------------------------------------------------

  /** Only an authorized payment is captured, and that one has no ledger row yet. */
  lemma CaptureWaits(w: World, clearingDays: nat, now: int, b: Id)
    requires Joint(w)
    ensures Waits(w.db, Capture(w, clearingDays, now, b).0.db, clearingDays)
  {
    hide Joint, Waits, Emit;
    SameMoneyWaits(w.db, w.db, clearingDays);
    if b in w.db.payments && w.db.payments[b].status == Authorized {
      PaymentAt(w, b);
      var ref := w.db.payments[b].ref;
      var tried := w.(fake := w.fake.(captureTried := w.fake.captureTried + {ref}));
      EmitWaits(tried, clearingDays, now, RefEvent(ref.seqNo, EvCaptured, b));
    }
  }

  lemma RefundWaits(w: World, clearingDays: nat, now: int, b: Id)
    ensures Waits(w.db, Refund(w, clearingDays, now, b).0.db, clearingDays)
  {
    hide Waits, Emit;
    SameMoneyWaits(w.db, w.db, clearingDays);
    if b in w.db.payments {
      EmitWaits(w, clearingDays, now, VoidEvent(b));
      var ref := w.db.payments[b].ref;
      if ref.Fake? && ref in w.fake.paymentByRef {
        EmitWaits(w, clearingDays, now, RefEvent(ref.seqNo, EvRefunded, w.fake.paymentByRef[ref]));
      }
    }
  }

  lemma AuthorizeWaits(w: World, clearingDays: nat, now: int, b: Id, token: string)
    ensures Waits(w.db, Authorize(w, clearingDays, now, b, token).0.db, clearingDays)
  {
    hide Waits, Emit;
    SameMoneyWaits(w.db, w.db, clearingDays);
    EmitWaits(w, clearingDays, now, DeclineEvent(b));
    var handed := NextRef(w, b, token);
    EmitWaits(handed, clearingDays, now, RefEvent(handed.fake.seqNo, EvAuthorized, b));
  }

  // --- the booking calls ---------------------------------------------------------------------

  lemma CaptureAndFinishWaits(w: World, clearingDays: nat, now: int, id: Id, noShow: NoShowParty, fault: Fault)
    requires Joint(w) && id in w.db.bookings
    ensures Waits(w.db, CaptureAndFinish(w, clearingDays, now, id, noShow, fault).0.db, clearingDays)
  {
    hide Joint, Waits, Capture;
    CaptureWaits(w, clearingDays, now, id);
    var captured := Capture(w, clearingDays, now, id).0;
    var done := CaptureAndFinish(w, clearingDays, now, id, noShow, fault).0;
    SameMoneyWaits(captured.db, done.db, clearingDays);
    WaitsChains(w.db, captured.db, done.db, clearingDays);
  }

  lemma DoCancelWaits(w: World, clearingDays: nat, now: int, id: Id, who: Canceller, refund: bool)
    requires id in w.db.bookings
    ensures Waits(w.db, DoCancel(w, clearingDays, now, id, who, refund).db, clearingDays)
  {
    hide Waits, Refund;
    var cancelled := w.(db := SetBooking(w.db, id, w.db.bookings[id].(status := Cancelled, cancelledBy := who)));
    SameMoneyWaits(w.db, cancelled.db, clearingDays);
    SameMoneyWaits(cancelled.db, cancelled.db, clearingDays);
    RefundWaits(cancelled, clearingDays, now, id);
    WaitsChains(w.db, cancelled.db, DoCancel(w, clearingDays, now, id, who, refund).db, clearingDays);
  }

  lemma NoShowWaits(w: World, clearingDays: nat, now: int, caller: Id, id: Id, party: NoShowParty, fault: Fault)
    requires Joint(w)
    ensures Waits(w.db, NoShow(w, clearingDays, now, caller, id, party, fault).0.db, clearingDays)
  {
    hide Joint, Waits, CaptureAndFinish, DoCancel;
    SameMoneyWaits(w.db, w.db, clearingDays);
    if id in w.db.bookings {
      CaptureAndFinishWaits(w, clearingDays, now, id, StudentMissed, fault);
      var marked := w.(db := SetBooking(w.db, id, w.db.bookings[id].(noShow := TeacherMissed)));
      SameMoneyWaits(w.db, marked.db, clearingDays);
      DoCancelWaits(marked, clearingDays, now, id, ByTeacher, true);
      WaitsChains(w.db, marked.db, DoCancel(marked, clearingDays, now, id, ByTeacher, true).db, clearingDays);
    }
  }

  lemma CreateWaits(w: World, clearingDays: nat, now: int, student: Id, input: CreateInput, id: Id, intentFails: bool)
    ensures Waits(w.db, Create(w, now, student, input, id, intentFails).0.db, clearingDays)
  {
    hide CreateVerdict;
  }

  /** Every call but a payout run waits. */
  lemma CallWaits(w: World, clearingDays: nat, now: int, c: Call)
    requires Joint(w) && Possible(w, c) && !c.CallPayout?
    ensures Waits(w.db, BookingRules.Next(w, clearingDays, now, c).db, clearingDays)
  {
    hide Joint, Waits, Create, Authorize, CaptureAndFinish, DoCancel, Refund, NoShow;
    SameMoneyWaits(w.db, w.db, clearingDays);
    match c
    case CallCreate(student, input, id, fails) => CreateWaits(w, clearingDays, now, student, input, id, fails);
    case CallPay(caller, id, token) => AuthorizeWaits(w, clearingDays, now, id, Text.TrimSpace(token));
    case CallComplete(caller, id, fault) =>
      if id in w.db.bookings { CaptureAndFinishWaits(w, clearingDays, now, id, NobodyMissed, fault); }
    case CallCancel(caller, id) =>
      if id in w.db.bookings { DoCancelWaits(w, clearingDays, now, id, CancellerFor(w.db.bookings[id], caller), true); }
    case CallForceCancel(id, refund) =>
      if id in w.db.bookings { DoCancelWaits(w, clearingDays, now, id, ByAdmin, refund); }
    case CallAdminRefund(id) => RefundWaits(w, clearingDays, now, id);
    case CallNoShow(caller, id, party, fault) => NoShowWaits(w, clearingDays, now, caller, id, party, fault);
    case SetTeacher(id, t) => SameMoneyWaits(w.db, BookingRules.Next(w, clearingDays, now, c).db, clearingDays);
  }

  /** A payout run leaves deadlines alone and pays only rows past theirs. */
  lemma PayoutClears(w: World, clearingDays: nat, now: int, admin: Id, batch: Id)
    requires Joint(w) && batch !in w.db.batches && Cleared(w.db, clearingDays)
    ensures var after := SoloRun(w.db, admin, batch, now);
            && Cleared(after, clearingDays)
            && forall b :: b in after.ledger && after.ledger[b].state == Paid ==>
                 b in w.db.ledger && (w.db.ledger[b].state == Paid || w.db.ledger[b].availableAt <= now)
  {
    hide Joint, LedgerSound;
    assert LedgerSound(w.db) by { JointIsSound(w); }
    PayoutSound(w.db, admin, batch, now);
  }

  lemma JointIsSound(w: World)
    requires Joint(w)
    ensures LedgerSound(w.db)
  {
  }

  // --- whole runs ------------------------------------------------------------------------------

  lemma {:induction false} RunKeepsDeadlines(w: World, clearingDays: nat, calls: seq<Timed>)
    requires Joint(w) && Cleared(w.db, clearingDays)
    ensures Cleared(RunCalls(w, clearingDays, calls).db, clearingDays)
    decreases |calls|
  {
    hide Joint, Cleared, BookingRules.Next, BookingsAdvance;
    if calls != [] {
      var c := calls[0];
      var v := if Possible(w, c.call) then BookingRules.Next(w, clearingDays, c.now, c.call) else w;
      if Possible(w, c.call) {
        CallKeeps(w, clearingDays, c.now, c.call);
        StepClears(w, clearingDays, c.now, c.call);
      }
      RunKeepsDeadlines(v, clearingDays, calls[1..]);
    }
  }

  lemma StepClears(w: World, clearingDays: nat, now: int, c: Call)
    requires Joint(w) && Possible(w, c) && Cleared(w.db, clearingDays)
    ensures Cleared(BookingRules.Next(w, clearingDays, now, c).db, clearingDays)
  {
    hide Joint, Cleared, Create, Pay, Complete, Cancel, ForceCancel, BookingRules.AdminRefund, NoShow, SoloRun;
    if c.CallPayout? {
      PayoutClears(w, clearingDays, now, c.admin, c.batch);
    } else {
      CallWaits(w, clearingDays, now, c);
    }
  }

  /** In every reachable state each ledger row became or becomes available the clearing days after its capture. */
  lemma DeadlineIsCapturePlusClearing(clearingDays: nat, calls: seq<Timed>, b: Id)
    requires b in RunCalls(EMPTY_WORLD, clearingDays, calls).db.ledger
    ensures var db := RunCalls(EMPTY_WORLD, clearingDays, calls).db;
            && b in db.payments && db.payments[b].capturedAt.Some?
            && db.ledger[b].availableAt == db.payments[b].capturedAt.value + clearingDays * DAY
  {
    hide Joint, RunCalls;
    EmptyWorldJoint();
    RunKeepsDeadlines(EMPTY_WORLD, clearingDays, calls);
  }

  /**
    Whenever a row turns paid, the call was a payout run and the clearing days since the
    money's capture had passed.
  */
  lemma NeverPaidEarly(clearingDays: nat, calls: seq<Timed>, c: Timed, b: Id)
    requires var w := RunCalls(EMPTY_WORLD, clearingDays, calls);
             Possible(w, c.call) && b in BookingRules.Next(w, clearingDays, c.now, c.call).db.ledger
    requires var w := RunCalls(EMPTY_WORLD, clearingDays, calls);
             BookingRules.Next(w, clearingDays, c.now, c.call).db.ledger[b].state == Paid
             && !(b in w.db.ledger && w.db.ledger[b].state == Paid)
    ensures var db := RunCalls(EMPTY_WORLD, clearingDays, calls).db;
            && c.call.CallPayout?
            && b in db.payments && db.payments[b].capturedAt.Some?
            && db.payments[b].capturedAt.value + clearingDays * DAY <= c.now
  {
    hide Joint, RunCalls, BookingsAdvance;
    EmptyWorldJoint();
    RunKeeps(EMPTY_WORLD, clearingDays, calls);
    RunKeepsDeadlines(EMPTY_WORLD, clearingDays, calls);
    var w := RunCalls(EMPTY_WORLD, clearingDays, calls);
    NewlyPaid(w, clearingDays, c.now, c.call, b);
  }

  lemma NewlyPaid(w: World, clearingDays: nat, now: int, c: Call, b: Id)
    requires Joint(w) && Possible(w, c) && Cleared(w.db, clearingDays)
    requires var after := BookingRules.Next(w, clearingDays, now, c).db.ledger; b in after && after[b].state == Paid
    requires !(b in w.db.ledger && w.db.ledger[b].state == Paid)
    ensures c.CallPayout? && b in w.db.ledger && w.db.ledger[b].availableAt <= now
  {
    hide Joint, Cleared, Create, Pay, Complete, Cancel, ForceCancel, BookingRules.AdminRefund, NoShow, SoloRun;
    if c.CallPayout? {
      PayoutClears(w, clearingDays, now, c.admin, c.batch);
    } else {
      CallWaits(w, clearingDays, now, c);
    }
  }
}
