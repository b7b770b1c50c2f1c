/**
  What a cancellation leaves of the money, for good, and what a voided intent means
  (backend/internal/bookings/service.go, backend/internal/payments/service.go,
  backend/internal/disputes/service.go).
*/
module Cancellations {
  import opened Options
  import opened Tables
  import opened Money
  import opened Payouts
  import opened BookingRules
  import opened Lifecycle
  import opened LifecycleRuns
  import opened CallOutcomes
  import opened Ratings
  import opened Disputes
  import opened Annotations

  /** The intent of `b` has been voided. */
  predicate Voided(db: Db, b: Id) {
    Stable(OfVoid(b), EvFailed) in db.events
  }

  /** A payment that was given back or never went through. */
  predicate Idle(s: PaymentStatus) {
    s == Failed || s == Refunded
  }

  // --- events ------------------------------------------------------------------------------

  /** A void is recorded only as the failure of its own payment. */
  predicate VoidsItsOwn(e: Event) {
    e.id.Stable? && e.id.source.OfVoid? ==> e.kind == EvFailed && e.payment == e.id.source.payment
  }

  lemma EmitRecords(w: World, clearingDays: nat, now: int, e: Event, b: Id)
    requires VoidsItsOwn(e)
    ensures Voided(Emit(w, clearingDays, now, e).0.db, b) ==>
              Voided(w.db, b) || (e.id == Stable(OfVoid(b), EvFailed) && e.payment == b)
  {
  }

  lemma CaptureVoidsNothing(w: World, clearingDays: nat, now: int, id: Id, b: Id)
    ensures Voided(Capture(w, clearingDays, now, id).0.db, b) ==> Voided(w.db, b)
  {
    hide Emit;
    if id in w.db.payments && w.db.payments[id].ref.Fake? {
      var ref := w.db.payments[id].ref;
      var tried := w.(fake := w.fake.(captureTried := w.fake.captureTried + {ref}));
      if ref in w.fake.paymentByRef {
        EmitRecords(tried, clearingDays, now, RefEvent(ref.seqNo, EvCaptured, w.fake.paymentByRef[ref]), b);
      }
    }
  }

  lemma AuthorizeVoidsNothing(w: World, clearingDays: nat, now: int, id: Id, token: string, b: Id)
    ensures Voided(Authorize(w, clearingDays, now, id, token).0.db, b) ==> Voided(w.db, b)
  {
    hide Emit;
    EmitRecords(w, clearingDays, now, DeclineEvent(id), b);
    var handed := NextRef(w, id, token);
    EmitRecords(handed, clearingDays, now, RefEvent(handed.fake.seqNo, EvAuthorized, id), b);
  }

  /** Only a refund of an intent nobody held money on voids, and only its own. */
  lemma RefundVoidsIdle(w: World, clearingDays: nat, now: int, id: Id, b: Id)
    ensures Voided(Refund(w, clearingDays, now, id).0.db, b) ==>
              Voided(w.db, b) || (b == id && id in w.db.payments && !HoldsMoney(w.db.payments[id].status))
  {
    hide Emit;
    if id in w.db.payments {
      EmitRecords(w, clearingDays, now, VoidEvent(id), b);
      var ref := w.db.payments[id].ref;
      if ref.Fake? && ref in w.fake.paymentByRef {
        EmitRecords(w, clearingDays, now, RefEvent(ref.seqNo, EvRefunded, w.fake.paymentByRef[ref]), b);
      }
    }
  }

  // --- what a refund leaves ----------------------------------------------------------------

  /** After a refund the payment, if there is one, has failed or is refunded. */
  lemma RefundLeavesIdle(w: World, clearingDays: nat, now: int, id: Id)
    requires Joint(w) && id in w.db.bookings
    requires Voided(w.db, id) ==> id in w.db.payments && w.db.payments[id].status != RequiresPayment
    ensures var v := Refund(w, clearingDays, now, id).0;
            && v.db.payments.Keys == w.db.payments.Keys
            && (id in v.db.payments ==> Idle(v.db.payments[id].status))
            && (id in v.db.payments && !HoldsMoney(w.db.payments[id].status) ==> v.db.payments[id].status == Failed)
  {
    hide Joint, Emit;
    JointAt(w, id);
    RefundKeeps(w, clearingDays, now, id);
    RefundTouchesOnly(w, clearingDays, now, id);
    if id in w.db.payments && !HoldsMoney(w.db.payments[id].status) {
      VoidFails(w, clearingDays, now, id);
    }
  }

  lemma VoidFails(w: World, clearingDays: nat, now: int, id: Id)
    requires id in w.db.payments && id != NIL_ID && !HoldsMoney(w.db.payments[id].status)
    requires Voided(w.db, id) ==> w.db.payments[id].status != RequiresPayment
    ensures var v := Emit(w, clearingDays, now, VoidEvent(id)).0;
            id in v.db.payments && v.db.payments[id].status == Failed && v.db.payments.Keys == w.db.payments.Keys
  {
  }

  // --- cancelled lessons over whole runs -------------------------------------------------------

  /** Cancelled by one of its two people: no intent, or one that failed or was refunded. */
  predicate CancelledAt(db: Db, b: Id) {
    b in db.bookings && db.bookings[b].status == Cancelled && db.bookings[b].cancelledBy != ByAdmin && b in db.payments ==>
      Idle(db.payments[b].status)
  }

  /** A voided intent is not waiting for a first payment. */
  predicate VoidAt(db: Db, b: Id) {
    Voided(db, b) ==> b in db.payments && db.payments[b].status != RequiresPayment
  }

  ghost predicate CancelledFits(db: Db) {
    forall b: Id :: CancelledAt(db, b) && VoidAt(db, b)
  }

  lemma DoCancelSettles(w: World, clearingDays: nat, now: int, id: Id, who: Canceller, refund: bool)
    requires Joint(w) && id in w.db.bookings && Cancellable(w.db.bookings[id]) && VoidAt(w.db, id)
    requires refund || who == ByAdmin
    ensures var v := DoCancel(w, clearingDays, now, id, who, refund); CancelledAt(v.db, id) && VoidAt(v.db, id)
  {
    hide Joint, Refund;
    var row := w.db.bookings[id].(status := Cancelled, cancelledBy := who);
    var cancelled := w.(db := SetBooking(w.db, id, row));
    BookingWriteKeeps(w, id, row);
    RefundLeavesIdle(cancelled, clearingDays, now, id);
    RefundVoidsIdle(cancelled, clearingDays, now, id, id);
  }

  lemma NoShowSettles(w: World, clearingDays: nat, now: int, caller: Id, id: Id, party: NoShowParty, fault: Fault)
    requires Joint(w) && CancelledAt(w.db, id) && VoidAt(w.db, id)
    ensures var v := NoShow(w, clearingDays, now, caller, id, party, fault).0; CancelledAt(v.db, id) && VoidAt(v.db, id)
  {
    hide Joint, DoCancel, CaptureAndFinish;
    if MayReport(w, now, caller, id) {
      if party == StudentMissed {
        FinishSettles(w, clearingDays, now, id, StudentMissed, fault);
      } else {
        var row := w.db.bookings[id].(noShow := TeacherMissed);
        JointAt(w, id);
        BookingWriteKeeps(w, id, row);
        DoCancelSettles(w.(db := SetBooking(w.db, id, row)), clearingDays, now, id, ByTeacher, true);
      }
    }
  }

  lemma FinishSettles(w: World, clearingDays: nat, now: int, id: Id, noShow: NoShowParty, fault: Fault)
    requires Joint(w) && id in w.db.bookings && w.db.bookings[id].status == Confirmed && VoidAt(w.db, id)
    ensures var v := CaptureAndFinish(w, clearingDays, now, id, noShow, fault).0; CancelledAt(v.db, id) && VoidAt(v.db, id)
  {
    hide Joint, Capture;
    CaptureKeeps(w, clearingDays, now, id);
    CaptureVoidsNothing(w, clearingDays, now, id, id);
  }

  lemma PaySettles(w: World, clearingDays: nat, now: int, caller: Id, id: Id, token: string)
    requires Joint(w) && CancelledAt(w.db, id) && VoidAt(w.db, id)
    ensures var v := Pay(w, clearingDays, now, caller, id, token).0; CancelledAt(v.db, id) && VoidAt(v.db, id)
  {
    hide Joint, Authorize, Text.TrimSpace;
    if id in w.db.bookings && w.db.bookings[id].status == PendingPayment {
      var trimmed := Text.TrimSpace(token);
      AuthorizeKeeps(w, clearingDays, now, id, trimmed);
      AuthorizeVoidsNothing(w, clearingDays, now, id, trimmed, id);
      AuthorizeNeverResets(w, clearingDays, now, id, trimmed);
    }
  }

  lemma AuthorizeNeverResets(w: World, clearingDays: nat, now: int, id: Id, token: string)
    ensures var v := Authorize(w, clearingDays, now, id, token).0;
            id in w.db.payments && w.db.payments[id].status != RequiresPayment ==>
              id in v.db.payments && v.db.payments[id].status != RequiresPayment
  {
    hide Emit;
    EmitNeverResets(w, clearingDays, now, DeclineEvent(id), id);
    var handed := NextRef(w, id, token);
    EmitNeverResets(handed, clearingDays, now, RefEvent(handed.fake.seqNo, EvAuthorized, id), id);
  }

  /** No event puts a payment back to waiting for its first attempt. */
  lemma EmitNeverResets(w: World, clearingDays: nat, now: int, e: Event, id: Id)
    ensures id in w.db.payments && w.db.payments[id].status != RequiresPayment ==>
              var v := Emit(w, clearingDays, now, e).0;
              id in v.db.payments && v.db.payments[id].status != RequiresPayment
  {
  }

  lemma AdminRefundSettles(w: World, clearingDays: nat, now: int, id: Id)
    requires Joint(w) && CancelledAt(w.db, id) && VoidAt(w.db, id)
    ensures var v := BookingRules.AdminRefund(w, clearingDays, now, id).0; CancelledAt(v.db, id) && VoidAt(v.db, id)
  {
    hide Joint, Refund;
    if id in w.db.bookings {
      RefundLeavesIdle(w, clearingDays, now, id);
      RefundVoidsIdle(w, clearingDays, now, id, id);
    }
  }

  /** A call voids no intent but its own booking's. */
  lemma CallVoidsOnlyItsOwn(w: World, clearingDays: nat, now: int, c: Call, b: Id)
    requires Target(c) != Some(b)
    ensures Voided(BookingRules.Next(w, clearingDays, now, c).db, b) ==> Voided(w.db, b)
  {
    hide Pay, Complete, Refund, Create, NoShow, DoCancel, SoloRun, Voided;
    match c
    case CallCreate(student, input, id, fails) => CreateVoidsNothing(w, now, student, input, id, fails, b);
    case CallPay(caller, id, token) => PayVoidsNothing(w, clearingDays, now, caller, id, token, b);
    case CallComplete(caller, id, fault) => CompleteVoidsNothing(w, clearingDays, now, caller, id, fault, b);
    case CallCancel(caller, id) =>
      if id in w.db.bookings { CancelVoidsOnlyItsOwn(w, clearingDays, now, id, CancellerFor(w.db.bookings[id], caller), true, b); }
    case CallForceCancel(id, refund) =>
      if id in w.db.bookings { CancelVoidsOnlyItsOwn(w, clearingDays, now, id, ByAdmin, refund, b); }
    case CallAdminRefund(id) => RefundVoidsIdle(w, clearingDays, now, id, b);
    case CallNoShow(caller, id, party, fault) => NoShowVoidsOnlyItsOwn(w, clearingDays, now, caller, id, party, fault, b);
    case CallPayout(admin, batch) =>
      PayoutMovesRows(w.db, admin, batch, now);
      SameEventsSameVoids(w.db, SoloRun(w.db, admin, batch, now), b);
    case SetTeacher(id, t) => SameEventsSameVoids(w.db, w.db.(teachers := w.db.teachers[id := t]), b);
  }

  lemma SameEventsSameVoids(before: Db, after: Db, b: Id)
    requires after.events == before.events
    ensures Voided(after, b) <==> Voided(before, b)
  {
  }

  lemma CreateVoidsNothing(w: World, now: int, student: Id, input: CreateInput, id: Id, fails: bool, b: Id)
    ensures Voided(Create(w, now, student, input, id, fails).0.db, b) ==> Voided(w.db, b)
  {
    hide CreateVerdict;
  }

  lemma PayVoidsNothing(w: World, clearingDays: nat, now: int, caller: Id, id: Id, token: string, b: Id)
    ensures Voided(Pay(w, clearingDays, now, caller, id, token).0.db, b) ==> Voided(w.db, b)
  {
    hide Authorize, Text.TrimSpace;
    AuthorizeVoidsNothing(w, clearingDays, now, id, Text.TrimSpace(token), b);
  }

  lemma CompleteVoidsNothing(w: World, clearingDays: nat, now: int, caller: Id, id: Id, fault: Fault, b: Id)
    ensures Voided(Complete(w, clearingDays, now, caller, id, fault).0.db, b) ==> Voided(w.db, b)
  {
    hide Capture;
    CaptureVoidsNothing(w, clearingDays, now, id, b);
  }

  lemma NoShowVoidsOnlyItsOwn(w: World, clearingDays: nat, now: int, caller: Id, id: Id, party: NoShowParty, fault: Fault, b: Id)
    requires b != id
    ensures Voided(NoShow(w, clearingDays, now, caller, id, party, fault).0.db, b) ==> Voided(w.db, b)
  {
    hide Capture, DoCancel;
    CaptureVoidsNothing(w, clearingDays, now, id, b);
    if id in w.db.bookings {
      var marked := w.(db := SetBooking(w.db, id, w.db.bookings[id].(noShow := TeacherMissed)));
      CancelVoidsOnlyItsOwn(marked, clearingDays, now, id, ByTeacher, true, b);
    }
  }

  lemma CancelVoidsOnlyItsOwn(w: World, clearingDays: nat, now: int, id: Id, who: Canceller, refund: bool, b: Id)
    requires id in w.db.bookings && b != id
    ensures Voided(DoCancel(w, clearingDays, now, id, who, refund).db, b) ==> Voided(w.db, b)
  {
    hide Refund;
    var row := w.db.bookings[id].(status := Cancelled, cancelledBy := who);
    RefundVoidsIdle(w.(db := SetBooking(w.db, id, row)), clearingDays, now, id, b);
  }

  lemma OtherStaysSettled(w: World, clearingDays: nat, now: int, c: Call, b: Id)
    requires Joint(w) && Possible(w, c) && Target(c) != Some(b) && CancelledAt(w.db, b) && VoidAt(w.db, b)
    ensures var v := BookingRules.Next(w, clearingDays, now, c); CancelledAt(v.db, b) && VoidAt(v.db, b)
  {
    hide Joint, BookingRules.Next;
    CallVoidsOnlyItsOwn(w, clearingDays, now, c, b);
    if Target(c).Some? {
      CallTouchesOnly(w, clearingDays, now, c);
    } else {
      AsideMovesNoMoney(w, clearingDays, now, c);
    }
  }

  lemma AsideMovesNoMoney(w: World, clearingDays: nat, now: int, c: Call)
    requires Target(c).None?
    ensures var v := BookingRules.Next(w, clearingDays, now, c);
            v.db.bookings == w.db.bookings && v.db.payments == w.db.payments
  {
    if c.CallPayout? { PayoutMovesRows(w.db, c.admin, c.batch, now); }
  }

  lemma TargetStaysSettled(w: World, clearingDays: nat, now: int, c: Call, b: Id)
    requires Joint(w) && Possible(w, c) && Target(c) == Some(b) && CancelledAt(w.db, b) && VoidAt(w.db, b)
    ensures var v := BookingRules.Next(w, clearingDays, now, c); CancelledAt(v.db, b) && VoidAt(v.db, b)
  {
    hide Joint, CaptureAndFinish, DoCancel, Refund, Create, NoShow, Pay;
    match c
    case CallCreate(student, input, id, fails) =>
      JointUnknown(w, id);
      CreateOutcome(w, now, student, input, id, fails);
    case CallPay(caller, id, token) => PaySettles(w, clearingDays, now, caller, id, token);
    case CallComplete(caller, id, fault) =>
      if id in w.db.bookings && w.db.bookings[id].status == Confirmed {
        FinishSettles(w, clearingDays, now, id, NobodyMissed, fault);
      }
    case CallCancel(caller, id) =>
      if id in w.db.bookings && Cancellable(w.db.bookings[id]) {
        DoCancelSettles(w, clearingDays, now, id, CancellerFor(w.db.bookings[id], caller), true);
      }
    case CallForceCancel(id, refund) =>
      if id in w.db.bookings && Cancellable(w.db.bookings[id]) {
        DoCancelSettles(w, clearingDays, now, id, ByAdmin, refund);
      }
    case CallAdminRefund(id) => AdminRefundSettles(w, clearingDays, now, id);
    case CallNoShow(caller, id, party, fault) => NoShowSettles(w, clearingDays, now, caller, id, party, fault);
  }

  lemma JointUnknown(w: World, id: Id)
    requires Joint(w) && id !in w.db.bookings
    ensures id !in w.db.payments
  {
  }

  /** Over every run: a lesson cancelled by its student or teacher holds no money, then or ever after. */
  lemma {:induction false} RunKeepsCancelled(w: World, clearingDays: nat, calls: seq<Timed>)
    requires Joint(w) && CancelledFits(w.db)
    ensures CancelledFits(RunCalls(w, clearingDays, calls).db)
    decreases |calls|
  {
    hide Joint, BookingRules.Next, CancelledAt, VoidAt;
    if calls != [] {
      var c := calls[0];
      var v := if Possible(w, c.call) then BookingRules.Next(w, clearingDays, c.now, c.call) else w;
      if Possible(w, c.call) {
        CallKeeps(w, clearingDays, c.now, c.call);
        forall b: Id ensures CancelledAt(v.db, b) && VoidAt(v.db, b) {
          if Target(c.call) == Some(b) {
            TargetStaysSettled(w, clearingDays, c.now, c.call, b);
          } else {
            OtherStaysSettled(w, clearingDays, c.now, c.call, b);
          }
        }
      }
      RunKeepsCancelled(v, clearingDays, calls[1..]);
    }
  }

  /** From empty tables: a cancelled lesson has no intent, or an idle one, unless an operator cancelled it. */
  lemma CancelledLessonsHoldNoMoney(clearingDays: nat, calls: seq<Timed>, b: Id)
    requires b in RunCalls(EMPTY_WORLD, clearingDays, calls).db.bookings
    requires RunCalls(EMPTY_WORLD, clearingDays, calls).db.bookings[b].status == Cancelled
    ensures var db := RunCalls(EMPTY_WORLD, clearingDays, calls).db;
            db.bookings[b].cancelledBy == ByAdmin || b !in db.payments || db.payments[b].status in {Failed, Refunded}
  {
    hide Joint, RunCalls;
    EmptyWorldJoint();
    RunKeepsCancelled(EMPTY_WORLD, clearingDays, calls);
    assert CancelledAt(RunCalls(EMPTY_WORLD, clearingDays, calls).db, b);
  }

  // --- a voided intent, when refunds come only from cancellations and disputes -------------------

  /** A voided intent belongs to a cancelled booking and has failed. */
  predicate VoidFinalAt(db: Db, b: Id) {
    Voided(db, b) ==>
      b in db.bookings && db.bookings[b].status == Cancelled && b in db.payments && db.payments[b].status == Failed
  }

  ghost predicate VoidFinal(db: Db) {
    forall b: Id :: VoidFinalAt(db, b)
  }

  lemma RefundKeepsVoidFinal(w: World, clearingDays: nat, now: int, id: Id)
    requires Joint(w) && VoidFinalAt(w.db, id)
    requires id in w.db.bookings && w.db.bookings[id].status != PendingPayment
    ensures VoidFinalAt(Refund(w, clearingDays, now, id).0.db, id)
  {
    hide Joint, Refund;
    JointAt(w, id);
    RefundKeeps(w, clearingDays, now, id);
    RefundLeavesIdle(w, clearingDays, now, id);
    RefundVoidsIdle(w, clearingDays, now, id, id);
  }

  lemma DoCancelKeepsVoidFinal(w: World, clearingDays: nat, now: int, id: Id, who: Canceller, refund: bool)
    requires Joint(w) && id in w.db.bookings && Cancellable(w.db.bookings[id]) && VoidFinalAt(w.db, id)
    ensures VoidFinalAt(DoCancel(w, clearingDays, now, id, who, refund).db, id)
  {
    hide Joint, Refund;
    var row := w.db.bookings[id].(status := Cancelled, cancelledBy := who);
    BookingWriteKeeps(w, id, row);
    RefundKeepsVoidFinal(w.(db := SetBooking(w.db, id, row)), clearingDays, now, id);
  }

  lemma NoShowKeepsVoidFinal(w: World, clearingDays: nat, now: int, caller: Id, id: Id, party: NoShowParty, fault: Fault)
    requires Joint(w) && VoidFinalAt(w.db, id)
    ensures VoidFinalAt(NoShow(w, clearingDays, now, caller, id, party, fault).0.db, id)
  {
    hide Joint, DoCancel, Capture;
    if MayReport(w, now, caller, id) {
      CaptureVoidsNothing(w, clearingDays, now, id, id);
      var row := w.db.bookings[id].(noShow := TeacherMissed);
      JointAt(w, id);
      BookingWriteKeeps(w, id, row);
      DoCancelKeepsVoidFinal(w.(db := SetBooking(w.db, id, row)), clearingDays, now, id, ByTeacher, true);
    }
  }

  lemma TargetKeepsVoidFinal(w: World, clearingDays: nat, now: int, c: Call, b: Id)
    requires Joint(w) && Possible(w, c) && !c.CallAdminRefund? && Target(c) == Some(b) && VoidFinalAt(w.db, b)
    ensures VoidFinalAt(BookingRules.Next(w, clearingDays, now, c).db, b)
  {
    hide Joint, Capture, DoCancel, Authorize, Create, NoShow;
    match c
    case CallCreate(student, input, id, fails) => CreateOutcome(w, now, student, input, id, fails);
    case CallPay(_, id, token) => AuthorizeVoidsNothing(w, clearingDays, now, id, Text.TrimSpace(token), id);
    case CallComplete(_, id, _) => CaptureVoidsNothing(w, clearingDays, now, id, id);
    case CallCancel(caller, id) =>
      if id in w.db.bookings && Cancellable(w.db.bookings[id]) {
        DoCancelKeepsVoidFinal(w, clearingDays, now, id, CancellerFor(w.db.bookings[id], caller), true);
      }
    case CallForceCancel(id, refund) =>
      if id in w.db.bookings && Cancellable(w.db.bookings[id]) {
        DoCancelKeepsVoidFinal(w, clearingDays, now, id, ByAdmin, refund);
      }
    case CallNoShow(caller, id, party, fault) => NoShowKeepsVoidFinal(w, clearingDays, now, caller, id, party, fault);
  }

  lemma OtherKeepsVoidFinal(w: World, clearingDays: nat, now: int, c: Call, b: Id)
    requires Joint(w) && Possible(w, c) && Target(c) != Some(b) && VoidFinalAt(w.db, b)
    ensures VoidFinalAt(BookingRules.Next(w, clearingDays, now, c).db, b)
  {
    hide Joint, BookingRules.Next;
    CallVoidsOnlyItsOwn(w, clearingDays, now, c, b);
    if Target(c).Some? {
      CallTouchesOnly(w, clearingDays, now, c);
    } else {
      AsideMovesNoMoney(w, clearingDays, now, c);
    }
  }

  lemma BookingCallKeepsVoids(w: World, clearingDays: nat, now: int, c: Call)
    requires Joint(w) && Possible(w, c) && !c.CallAdminRefund? && VoidFinal(w.db)
    ensures VoidFinal(BookingRules.Next(w, clearingDays, now, c).db)
  {
    hide Joint, BookingRules.Next, VoidFinalAt;
    forall b: Id ensures VoidFinalAt(BookingRules.Next(w, clearingDays, now, c).db, b) {
      if Target(c) == Some(b) {
        TargetKeepsVoidFinal(w, clearingDays, now, c, b);
      } else {
        OtherKeepsVoidFinal(w, clearingDays, now, c, b);
      }
    }
  }

  /** A dispute is never about a pending booking, so resolving one cannot void a payable intent. */
  lemma ResolveKeepsVoids(s: Site, clearingDays: nat, now: int, admin: Id, id: Id, outcome: string, note: string, refund: bool)
    requires SiteSound(s) && VoidFinal(s.world.db)
    ensures VoidFinal(ResolveDispute(s.world, s.disputes, clearingDays, now, admin, id, outcome, note, refund).0.db)
  {
    hide Joint, Refund, VoidFinalAt, Text.TrimSpace;
    var v := ResolveDispute(s.world, s.disputes, clearingDays, now, admin, id, outcome, note, refund).0;
    if id in s.disputes {
      var d := s.disputes[id].booking;
      assert DisputeFits(s.world.db, s.disputes[id]);
      forall b: Id ensures VoidFinalAt(v.db, b) {
        if b == d {
          RefundKeepsVoidFinal(s.world, clearingDays, now, d);
        } else {
          OtherRefundKeepsVoid(s.world, clearingDays, now, d, b);
        }
      }
    }
  }

  lemma OtherRefundKeepsVoid(w: World, clearingDays: nat, now: int, id: Id, b: Id)
    requires Joint(w) && id in w.db.bookings && b != id && VoidFinalAt(w.db, b)
    ensures VoidFinalAt(Refund(w, clearingDays, now, id).0.db, b)
  {
    hide Joint, Refund;
    RefundVoidsIdle(w, clearingDays, now, id, b);
    RefundTouchesOnly(w, clearingDays, now, id);
    RefundKeeps(w, clearingDays, now, id);
  }

  lemma SiteCallKeepsVoids(s: Site, clearingDays: nat, now: int, c: SiteCall)
    requires SiteSound(s) && Feasible(s, c) && VoidFinal(s.world.db)
    ensures VoidFinal(SiteNext(s, clearingDays, now, c).world.db)
  {
    hide SiteSound, VoidFinal, BookingRules.Next, ResolveDispute;
    assert SiteSound(s) ==> Joint(s.world) by { SoundIsJoint(s); }
    match c
    case OnBooking(call) => BookingCallKeepsVoids(s.world, clearingDays, now, call);
    case OnResolve(admin, id, outcome, note, refund) => ResolveKeepsVoids(s, clearingDays, now, admin, id, outcome, note, refund);
    case _ =>
  }

  lemma SoundIsJoint(s: Site)
    requires SiteSound(s)
    ensures Joint(s.world)
  {
  }

  /** Recorded events stay recorded. */
  lemma CallKeepsEvents(w: World, clearingDays: nat, now: int, c: Call)
    ensures w.db.events.Keys <= BookingRules.Next(w, clearingDays, now, c).db.events.Keys
  {
    hide Authorize, Refund, CaptureAndFinish, DoCancel, CreateVerdict;
    if c.CallPayout? { PayoutMovesRows(w.db, c.admin, c.batch, now); }
  }

  lemma SiteCallKeepsEvents(s: Site, clearingDays: nat, now: int, c: SiteCall)
    ensures s.world.db.events.Keys <= SiteNext(s, clearingDays, now, c).world.db.events.Keys
  {
    hide BookingRules.Next, Refund, Text.TrimSpace, Apply;
    if c.OnBooking? { CallKeepsEvents(s.world, clearingDays, now, c.call); }
  }

  lemma {:induction false} RunSiteVoids(s: Site, clearingDays: nat, calls: seq<TimedCall>)
    requires SiteSound(s) && VoidFinal(s.world.db)
    ensures VoidFinal(RunSite(s, clearingDays, calls).world.db)
    ensures s.world.db.events.Keys <= RunSite(s, clearingDays, calls).world.db.events.Keys
    decreases |calls|
  {
    hide SiteSound, VoidFinal, SiteNext;
    if calls != [] {
      var c := calls[0];
      if Feasible(s, c.call) {
        SiteCallKeeps(s, clearingDays, c.now, c.call);
        SiteCallKeepsVoids(s, clearingDays, c.now, c.call);
        SiteCallKeepsEvents(s, clearingDays, c.now, c.call);
      }
      RunSiteVoids(if Feasible(s, c.call) then SiteNext(s, clearingDays, c.now, c.call) else s, clearingDays, calls[1..]);
    }
  }

  /**
    From empty tables: once an intent has been voided, in every later state its booking is
    cancelled, its payment has failed, and nobody can pay it with any token.
  */
  lemma VoidedIsNeverPaid(standings: map<Id, Standing>, clearingDays: nat, before: seq<TimedCall>, after: seq<TimedCall>,
                          b: Id, now: int, caller: Id, token: string)
    requires Voided(RunSite(Site(EMPTY_WORLD, Board(map[], standings), map[]), clearingDays, before).world.db, b)
    ensures var t := RunSite(RunSite(Site(EMPTY_WORLD, Board(map[], standings), map[]), clearingDays, before), clearingDays, after);
            && b in t.world.db.bookings && t.world.db.bookings[b].status == Cancelled
            && b in t.world.db.payments && t.world.db.payments[b].status == Failed
            && Pay(t.world, clearingDays, now, caller, b, token).1 != None
            && Pay(t.world, clearingDays, now, caller, b, token).0 == t.world
  {
    hide RunSite, SiteSound;
    var start := Site(EMPTY_WORLD, Board(map[], standings), map[]);
    EmptySiteSound(standings);
    RunSiteSound(start, clearingDays, before);
    RunSiteVoids(start, clearingDays, before);
    var s := RunSite(start, clearingDays, before);
    RunSiteVoids(s, clearingDays, after);
    assert VoidFinalAt(RunSite(s, clearingDays, after).world.db, b);
  }

  lemma EmptySiteSound(standings: map<Id, Standing>)
    ensures SiteSound(Site(EMPTY_WORLD, Board(map[], standings), map[]))
  {
    EmptyWorldJoint();
  }
}
