/**
  The tables as the repositories change them: one method per SQL statement of
  backend/internal/db/sqlc, and the transaction that applies a provider event
  (backend/internal/payments/repository_postgres.go).
*/
module Repository {
  import opened Options
  import opened UtcClock
  import opened Intervals
  import opened Tables
  import opened Webhooks
  import opened BookingRules
  import opened Payouts
  import Sums

  datatype InsertResult = Inserted | UniqueViolation | ForeignKeyViolation | ExclusionViolation

  predicate IsBookedIn(b: Booking, teacher: Id, from: int, to: int) {
    b.teacher == teacher && Live(b) && b.startAt < to && b.endAt > from
  }

  predicate SpansIt(b: Booking, iv: Interval) {
    iv == Interval(b.startAt, b.endAt)
  }

  ghost predicate NoneMissed(db: Db, teacher: Id, from: int, to: int, booked: seq<Interval>) {
    forall id :: id in db.bookings && IsBookedIn(db.bookings[id], teacher, from, to) ==>
      Interval(db.bookings[id].startAt, db.bookings[id].endAt) in booked
  }

  ghost predicate NoneInvented(db: Db, teacher: Id, from: int, to: int, booked: seq<Interval>) {
    forall iv :: iv in booked ==>
      exists id :: id in db.bookings && IsBookedIn(db.bookings[id], teacher, from, to) && SpansIt(db.bookings[id], iv)
  }

  /** Exactly the ranges of the teacher's live bookings that overlap [from, to). */
  ghost predicate BookedIn(db: Db, teacher: Id, from: int, to: int, booked: seq<Interval>) {
    NoneMissed(db, teacher, from, to, booked) && NoneInvented(db, teacher, from, to, booked)
  }

  predicate Excludes(b: Booking, row: Booking) {
    (b.teacher == row.teacher || b.student == row.student) && Clash(b, row.startAt, row.endAt)
  }

  class Store {
    var teachers: map<Id, Teacher>
    var bookings: map<Id, Booking>
    var payments: map<Id, Payment>
    var events: map<EventId, EventRow>
    var ledger: map<Id, LedgerRow>
    var batches: map<Id, Batch>

    function Tables(): Db
      reads this
    {
      Db(teachers, bookings, payments, events, ledger, batches)
    }

    constructor ()
      ensures Tables() == EMPTY_WORLD.db
    {
      teachers, bookings, payments := map[], map[], map[];
      events, ledger, batches := map[], map[], map[];
    }

    // --- bookings ------------------------------------------------------------------

    /**
      ListTeacherBookingIntervals: the teacher's live bookings that overlap [from, to).
      The contract is about which ranges come back; callers ignore their order.
    */
    method BookedIntervals(teacher: Id, from: int, to: int) returns (booked: seq<Interval>)
      ensures BookedIn(Tables(), teacher, from, to, booked)
    {
      booked := [];
      var left: set<int> := bookings.Keys;
      while left != {}
        invariant left <= bookings.Keys
        invariant forall id :: id in bookings && id !in left && IsBookedIn(bookings[id], teacher, from, to) ==>
                    Interval(bookings[id].startAt, bookings[id].endAt) in booked
        invariant forall iv :: iv in booked ==>
                    exists id :: id in bookings && IsBookedIn(bookings[id], teacher, from, to) && SpansIt(bookings[id], iv)
        decreases |left|
      {
        Sums.EmptyOrInhabited(left);
        var id :| id in left;
        left := left - {id};
        var b := bookings[id];
        if IsBookedIn(b, teacher, from, to) {
          assert SpansIt(b, Interval(b.startAt, b.endAt));
          booked := booked + [Interval(b.startAt, b.endAt)];
        }
      }
    }

    /** CreateBooking: both exclusion constraints reject an overlap with a live booking. */
    method InsertBooking(id: Id, row: Booking) returns (r: InsertResult)
      requires id !in bookings
      modifies this`bookings
      ensures r == if TeacherBusy(old(Tables()), row.teacher, row.startAt, row.endAt)
                      || StudentBusy(old(Tables()), row.student, row.startAt, row.endAt)
                   then ExclusionViolation else Inserted
      ensures Tables() == if r == Inserted then SetBooking(old(Tables()), id, row) else old(Tables())
    {
      var left: set<int> := bookings.Keys;
      while left != {}
        invariant left <= bookings.Keys && bookings == old(bookings)
        invariant forall k :: k in bookings && k !in left ==> !Excludes(bookings[k], row)
        decreases |left|
      {
        Sums.EmptyOrInhabited(left);
        var k :| k in left;
        left := left - {k};
        if Excludes(bookings[k], row) {
          return ExclusionViolation;
        }
      }
      bookings := bookings[id := row];
      return Inserted;
    }

    /** SetBookingStatus and SetBookingNoShowParty, unguarded. */
    method WriteBooking(id: Id, row: Booking)
      requires id in bookings
      modifies this`bookings
      ensures Tables() == SetBooking(old(Tables()), id, row)
    {
      bookings := bookings[id := row];
    }

    /** ConfirmBookingForPayment: only from pending_payment. */
    method ConfirmBookingForPayment(id: Id)
      modifies this`bookings
      ensures Tables() == ConfirmBooking(old(Tables()), id)
    {
      if id in bookings && bookings[id].status == PendingPayment {
        bookings := bookings[id := bookings[id].(status := Confirmed)];
      }
    }

    // --- payments ------------------------------------------------------------------

    /** `EnsurePayment`: insert or do nothing; the foreign key needs the booking. */
    method EnsurePayment(booking: Id, amount: nat)
      modifies this`payments
      ensures Tables() == OpenIntent(old(Tables()), booking, amount)
    {
      if booking in bookings && booking !in payments {
        payments := payments[booking := FreshPayment(amount)];
      }
    }

    method UpdatePayment(id: Id, p: Payment)
      requires id in payments
      modifies this`payments
      ensures Tables() == MarkPayment(old(Tables()), id, p)
    {
      payments := payments[id := p];
    }

    /** InsertPaymentEvent: the primary key makes a replay fail, the foreign key an unknown payment. */
    method InsertPaymentEvent(e: Event) returns (r: InsertResult)
      modifies this`events
      ensures r == if e.id in old(events) then UniqueViolation
                   else if e.payment !in payments then ForeignKeyViolation else Inserted
      ensures events == if r == Inserted then old(events)[e.id := EventRow(e.payment, e.kind)] else old(events)
    {
      if e.id in events {
        return UniqueViolation;
      }
      if e.payment !in payments {
        return ForeignKeyViolation;
      }
      events := events[e.id := EventRow(e.payment, e.kind)];
      return Inserted;
    }

    // --- ledger --------------------------------------------------------------------

    /** InsertLedgerHeld: selected from the booking, ON CONFLICT DO NOTHING. */
    method InsertLedgerHeld(booking: Id, amount: nat, availableAt: int)
      modifies this`ledger
      ensures Tables() == OpenLedger(old(Tables()), booking, amount, availableAt)
    {
      if booking in bookings && booking !in ledger {
        ledger := ledger[booking := LedgerRow(bookings[booking].teacher, amount, Held, availableAt, None)];
      }
    }

    /** MarkLedgerReversed: never over a reversed or paid row. */
    method MarkLedgerReversed(booking: Id)
      modifies this`ledger
      ensures Tables() == ReverseLedger(old(Tables()), booking)
    {
      if booking in ledger && ledger[booking].state != Reversed && ledger[booking].state != Paid {
        ledger := ledger[booking := ledger[booking].(state := Reversed)];
      }
    }

    // --- payouts -------------------------------------------------------------------

    method InsertPayoutBatch(id: Id, row: Batch)
      requires id !in batches
      modifies this`batches
      ensures batches == old(batches)[id := row]
    {
      batches := batches[id := row];
    }

    /** MarkLedgerRowsPaid: the listed rows, skipping any already paid. */
    method MarkLedgerRowsPaid(ids: set<Id>, batch: Id)
      modifies this`ledger
      ensures ledger == MarkPaid(old(ledger), ids, batch)
    {
      ledger := map id | id in ledger ::
        if id in ids && ledger[id].state != Paid then ledger[id].(state := Paid, batch := Some(batch)) else ledger[id];
    }

    // --- one event, one transaction ----------------------------------------------------

    /**
      `ApplyEvent`: the event row goes in first, so a replay is refused before anything
      else changes; an unknown type undoes that insert.
    */
    method ApplyEvent(clearingDays: nat, now: int, e: Event) returns (outcome: Outcome)
      modifies this
      ensures (Tables(), outcome) == Webhooks.ApplyEvent(old(Tables()), clearingDays, now, e)
      ensures outcome == Applied && e.kind == EvCaptured && e.payment in bookings && e.payment !in old(ledger) ==>
                e.payment in ledger && ledger[e.payment].availableAt == now + clearingDays * DAY
    {
      var begun := events;
      var inserted := InsertPaymentEvent(e);
      if inserted == UniqueViolation {
        return Duplicate;
      }
      if inserted == ForeignKeyViolation {
        return UnknownPayment;
      }
      var p := payments[e.payment];
      match e.kind {
        case EvAuthorized =>
          UpdatePayment(e.payment, p.(status := Authorized, ref := e.ref, lastError := "", authorizedAt := Some(now)));
          ConfirmBookingForPayment(e.payment);
        case EvCaptured =>
          UpdatePayment(e.payment, p.(status := Captured, capturedAt := Some(now)));
          InsertLedgerHeld(e.payment, p.amount, now + clearingDays * DAY);
        case EvRefunded =>
          UpdatePayment(e.payment, p.(status := Refunded, refundedAt := Some(now)));
          MarkLedgerReversed(e.payment);
        case EvFailed =>
          UpdatePayment(e.payment, p.(status := Failed, lastError := e.message));
        case EvUnknown =>
          events := begun;
          return UnknownType;
      }
      return Applied;
    }
  }
}
