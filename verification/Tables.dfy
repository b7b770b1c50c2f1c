/**
  The rows the booking, payment and payout code reads and writes, one map per table.
  `payments.booking_id` and `payout_ledger.booking_id` are UNIQUE, so a payment intent
  and a ledger row are addressed by their booking.
*/
module Tables {
  import opened Options
  import opened Projection

  type Id = nat

  /** uuid.Nil: nobody. */
  const NIL_ID: Id := 0

  datatype Teacher = Teacher(owner: Id, pricePerHour: nat, trialPrice: Option<nat>, spans: seq<AvailabilitySpan>)

  datatype BookingStatus = PendingPayment | Confirmed | Completed | Cancelled

  datatype Canceller = NotCancelled | ByStudent | ByTeacher | ByAdmin

  datatype NoShowParty = NobodyMissed | StudentMissed | TeacherMissed

  datatype Booking = Booking(
    teacher: Id, student: Id, startAt: int, endAt: int, isTrial: bool, price: nat,
    status: BookingStatus, cancelledBy: Canceller, noShow: NoShowParty)

  datatype PaymentStatus = RequiresPayment | Authorized | Captured | Refunded | Failed

  /** provider_ref: NULL, one of the fake provider's, or any other string. */
  datatype ProviderRef = NoRef | Fake(seqNo: nat) | Foreign(text: string)

  datatype Payment = Payment(
    status: PaymentStatus, ref: ProviderRef, amount: nat, lastError: string,
    authorizedAt: Option<int>, capturedAt: Option<int>, refundedAt: Option<int>)

  datatype EventType = EvAuthorized | EvCaptured | EvRefunded | EvFailed | EvUnknown

  /** What an event id is built from: a fake reference, or a payment's void or decline. */
  datatype EventSource = OfRef(seqNo: nat) | OfVoid(payment: Id) | OfDecline(payment: Id)

  /** `eventID(source, type)`, or whatever text a webhook carried. */
  datatype EventId = Stable(source: EventSource, kind: EventType) | Text(text: string)

  datatype Event = Event(id: EventId, kind: EventType, payment: Id, ref: ProviderRef, message: string)

  datatype EventRow = EventRow(payment: Id, kind: EventType)

  /** Stored ledger state; `Available` is only ever a row from before the clearing window. */
  datatype LedgerState = Held | Available | Paid | Reversed

  datatype LedgerRow = LedgerRow(
    teacher: Id, amount: nat, state: LedgerState, availableAt: int, batch: Option<Id>)

  datatype Batch = Batch(createdBy: Id, total: int, teacherCount: nat, lineCount: nat)

  datatype Db = Db(
    teachers: map<Id, Teacher>,
    bookings: map<Id, Booking>,
    payments: map<Id, Payment>,
    events: map<EventId, EventRow>,
    ledger: map<Id, LedgerRow>,
    batches: map<Id, Batch>)

  /** A row that a refund or a payout can still move. */
  predicate IsOpen(r: LedgerRow) {
    r.state == Held || r.state == Available
  }

  predicate Live(b: Booking) {
    b.status != Cancelled
  }

  /** The foreign keys and copied columns of the three money tables. */
  ghost predicate Linked(db: Db) {
    && db.payments.Keys <= db.bookings.Keys
    && db.ledger.Keys <= db.payments.Keys
    && (forall b :: b in db.ledger ==> db.ledger[b].amount == db.payments[b].amount)
    && (forall b :: b in db.ledger ==> db.ledger[b].teacher == db.bookings[b].teacher)
    && (forall id :: id in db.events ==> db.events[id].payment in db.payments)
  }
}
