/**
  Calls that stopped between the capture and the booking write, retried after anything
  that neither cancels nor refunds the lesson (backend/internal/bookings/service.go).
*/
module Retries {
  import opened Options
  import opened Tables
  import opened Money
  import opened BookingRules
  import opened Lifecycle
  import opened LifecycleRuns
  import opened CallOutcomes

  /** The call neither cancels nor refunds booking `id`. */
  predicate Spares(c: Call, id: Id) {
    match c
    case CallCancel(_, b) => b != id
    case CallForceCancel(b, _) => b != id
    case CallAdminRefund(b) => b != id
    case CallNoShow(_, b, party, _) => b != id || party != TeacherMissed
    case _ => true
  }

  predicate AllSpare(calls: seq<Timed>, id: Id) {
    forall i :: 0 <= i < |calls| ==> Spares(calls[i].call, id)
  }

  /** The money is in, the row is there, and the lesson is confirmed or already completed. */
  ghost predicate Banked(db: Db, id: Id) {
    && id in db.bookings && (db.bookings[id].status == Confirmed || db.bookings[id].status == Completed)
    && id in db.payments && db.payments[id].status == Captured
    && id in db.ledger
  }

  lemma ElsewhereKeepsBanked(before: Db, after: Db, id: Id, other: Id)
    requires Banked(before, id) && OnlyOf(before, after, other) && other != id
    ensures Banked(after, id)
  {
  }

  /** On a captured lesson, what is left of the sparing calls flips its status or does nothing. */
  lemma OwnCallKeepsBanked(w: World, clearingDays: nat, now: int, c: Call, id: Id)
    requires Banked(w.db, id) && Target(c) == Some(id) && Spares(c, id) && Possible(w, c)
    ensures Banked(BookingRules.Next(w, clearingDays, now, c).db, id)
  {
    hide Authorize, DoCancel;
  }

  lemma CallKeepsBanked(w: World, clearingDays: nat, now: int, c: Call, id: Id)
    requires Joint(w) && Possible(w, c) && Spares(c, id) && Banked(w.db, id)
    ensures Banked(BookingRules.Next(w, clearingDays, now, c).db, id)
  {
    hide Joint, Banked, OnlyOf, BookingRules.Next;
    if Target(c) == Some(id) {
      OwnCallKeepsBanked(w, clearingDays, now, c, id);
    } else if Target(c).Some? {
      CallTouchesOnly(w, clearingDays, now, c);
      ElsewhereKeepsBanked(w.db, BookingRules.Next(w, clearingDays, now, c).db, id, Target(c).value);
    } else {
      AsideKeepsBanked(w, clearingDays, now, c, id);
    }
  }

  lemma AsideKeepsBanked(w: World, clearingDays: nat, now: int, c: Call, id: Id)
    requires Banked(w.db, id) && Target(c).None?
    ensures Banked(BookingRules.Next(w, clearingDays, now, c).db, id)
  {
    if c.CallPayout? { PayoutMovesRows(w.db, c.admin, c.batch, now); }
  }

  /** A captured lesson stays captured, and confirmed or completed, through every run that spares it. */
  lemma {:induction false} RunKeepsBanked(w: World, clearingDays: nat, calls: seq<Timed>, id: Id)
    requires Joint(w) && Banked(w.db, id) && AllSpare(calls, id)
    ensures Joint(RunCalls(w, clearingDays, calls)) && Banked(RunCalls(w, clearingDays, calls).db, id)
    decreases |calls|
  {
    hide Joint, Banked, BookingRules.Next;
    if calls != [] {
      var c := calls[0];
      var v := if Possible(w, c.call) then BookingRules.Next(w, clearingDays, c.now, c.call) else w;
      if Possible(w, c.call) {
        CallKeeps(w, clearingDays, c.now, c.call);
        CallKeepsBanked(w, clearingDays, c.now, c.call, id);
      }
      RunKeepsBanked(v, clearingDays, calls[1..], id);
    }
  }

  /** The two calls that capture first, and how far a stopped one got. */
  lemma StoppedIsBanked(w: World, clearingDays: nat, now: int, id: Id, noShow: NoShowParty, fault: Fault)
    requires Joint(w) && id in w.db.bookings && w.db.bookings[id].status == Confirmed
    requires CaptureAndFinish(w, clearingDays, now, id, noShow, fault).1 == Some(WriteFailed)
    ensures var stopped := CaptureAndFinish(w, clearingDays, now, id, noShow, fault).0;
            Joint(stopped) && Banked(stopped.db, id) && BookingsAdvance(w.db, stopped.db)
  {
    hide Joint, Capture, BookingsAdvance;
    CaptureNeverWriteFails(w, clearingDays, now, id);
    CaptureKeeps(w, clearingDays, now, id);
    CaptureAndFinishKeeps(w, clearingDays, now, id, noShow, fault);
  }

  lemma CaptureNeverWriteFails(w: World, clearingDays: nat, now: int, id: Id)
    ensures var err := Capture(w, clearingDays, now, id).1; err.Some? ==> Translate(err.value) != WriteFailed
  {
    hide ProviderCapture;
  }

  /** What any sparing run leaves of a banked lesson: captured, on the ledger once, at the booked price. */
  lemma BankedForGood(w: World, stopped: World, clearingDays: nat, calls: seq<Timed>, id: Id)
    requires Joint(stopped) && Banked(stopped.db, id) && AllSpare(calls, id)
    requires id in w.db.bookings && BookingsAdvance(w.db, stopped.db)
    ensures var mid := RunCalls(stopped, clearingDays, calls);
            && Banked(mid.db, id)
            && mid.db.ledger[id].amount == w.db.bookings[id].price
            && Advances(w.db.bookings[id], mid.db.bookings[id])
  {
    hide Joint, RunCalls, BookingsAdvance;
    var mid := RunCalls(stopped, clearingDays, calls);
    RunKeepsBanked(stopped, clearingDays, calls, id);
    RunKeeps(stopped, clearingDays, calls);
    AdvanceChains(w.db, stopped.db, mid.db);
    AdvanceHolds(w.db, mid.db, id);
    JointAt(mid, id);
    RowCopiesPayment(mid, id);
  }

  /**
    A `Complete` that stopped after its capture, then any run that neither cancels nor
    refunds the lesson: the payment is still captured, its one ledger row carries the booked
    price, and the lesson is either already completed or the owner's retry completes it and
    touches nothing else.
  */
  lemma RetryAfterRun(w: World, clearingDays: nat, now: int, caller: Id, id: Id, calls: seq<Timed>, later: int, retrier: Id)
    requires Joint(w) && Complete(w, clearingDays, now, caller, id, StatusWriteFails).1 == Some(WriteFailed)
    requires AllSpare(calls, id) && now <= later
    ensures var mid := RunCalls(Complete(w, clearingDays, now, caller, id, StatusWriteFails).0, clearingDays, calls);
            && id in w.db.bookings && id in mid.db.bookings
            && id in mid.db.payments && mid.db.payments[id].status == Captured
            && id in mid.db.ledger && mid.db.ledger[id].amount == w.db.bookings[id].price
            && (mid.db.bookings[id].status == Completed
                || (mid.db.bookings[id].status == Confirmed
                    && (OwnsLesson(mid.db, mid.db.bookings[id], retrier) ==>
                          Complete(mid, clearingDays, later, retrier, id, NoFault)
                          == (mid.(db := SetBooking(mid.db, id, mid.db.bookings[id].(status := Completed))), None))))
  {
    hide Joint, RunCalls, BookingsAdvance, CaptureAndFinish;
    var stopped := Complete(w, clearingDays, now, caller, id, StatusWriteFails).0;
    StoppedIsBanked(w, clearingDays, now, id, NobodyMissed, StatusWriteFails);
    BankedForGood(w, stopped, clearingDays, calls, id);
    var mid := RunCalls(stopped, clearingDays, calls);
    CapturedFinishes(mid, clearingDays, later, id, NobodyMissed);
  }

  /** The same for a student no-show, stopped at either of its two writes. */
  lemma NoShowRetryAfterRun(w: World, clearingDays: nat, now: int, caller: Id, id: Id, fault: Fault, calls: seq<Timed>,
                            later: int, retrier: Id)
    requires Joint(w) && NoShow(w, clearingDays, now, caller, id, StudentMissed, fault).1 == Some(WriteFailed)
    requires AllSpare(calls, id) && now <= later
    ensures var mid := RunCalls(NoShow(w, clearingDays, now, caller, id, StudentMissed, fault).0, clearingDays, calls);
            && id in w.db.bookings && id in mid.db.bookings
            && id in mid.db.payments && mid.db.payments[id].status == Captured
            && id in mid.db.ledger && mid.db.ledger[id].amount == w.db.bookings[id].price
            && (mid.db.bookings[id].status == Completed
                || (mid.db.bookings[id].status == Confirmed
                    && (OwnsLesson(mid.db, mid.db.bookings[id], retrier) ==>
                          NoShow(mid, clearingDays, later, retrier, id, StudentMissed, NoFault)
                          == (mid.(db := SetBooking(mid.db, id, mid.db.bookings[id].(noShow := StudentMissed, status := Completed))),
                              None))))
  {
    hide Joint, RunCalls, BookingsAdvance, CaptureAndFinish;
    var stopped := NoShow(w, clearingDays, now, caller, id, StudentMissed, fault).0;
    StoppedIsBanked(w, clearingDays, now, id, StudentMissed, fault);
    BankedForGood(w, stopped, clearingDays, calls, id);
    var mid := RunCalls(stopped, clearingDays, calls);
    CapturedFinishes(mid, clearingDays, later, id, StudentMissed);
  }

  /** With the money already captured, finishing is only the booking write. */
  lemma CapturedFinishes(w: World, clearingDays: nat, now: int, id: Id, noShow: NoShowParty)
    requires Banked(w.db, id)
    ensures var b := w.db.bookings[id];
            var marked := if noShow == NobodyMissed then b else b.(noShow := noShow);
            CaptureAndFinish(w, clearingDays, now, id, noShow, NoFault)
            == (w.(db := SetBooking(w.db, id, marked.(status := Completed))), None)
  {
  }
}
