/**
  The money calls as functions on the tables and the fake provider's memory
  (backend/internal/payments/service.go, fake_provider.go, gateway.go).
*/
module Money {
  import opened Options
  import opened Tables
  import opened Webhooks

  datatype Error =
    | TeacherNotFound | BookingNotFound | Forbidden | CannotBookSelf | SlotUnavailable | SlotTaken
    | InvalidTransition | LessonNotStarted | TooEarly | Invalid
    | NotStudent | NotTeacherOwner | AlreadyPaid | PaymentRequired | PaymentFailed | CaptureFailed
    | PaymentNotFound | NotPayable | Declined | ProviderFailure | WebhookRefused | WriteFailed

  /** The fake provider's maps, keyed by the references it hands out. */
  datatype Provider = Provider(
    seqNo: nat, tokenByRef: map<ProviderRef, string>, paymentByRef: map<ProviderRef, Id>,
    captureTried: set<ProviderRef>)

  datatype World = World(db: Db, fake: Provider)

  const PM_DECLINE: string := "pm_decline"
  const PM_CAPTURE_FAIL: string := "pm_capture_fail"

  /** `HandleWebhook`: the three shape checks, then `ApplyEvent`; a duplicate is not an error. */
  function HandleWebhook(db: Db, clearingDays: nat, now: int, e: Event): (r: (Db, Option<Error>))
    ensures r.0.bookings.Keys == db.bookings.Keys && r.0.teachers == db.teachers && db.events.Keys <= r.0.events.Keys
  {
    if e.id == Text("") || e.kind == EvUnknown || e.payment == NIL_ID then (db, Some(WebhookRefused))
    else
      var (db', outcome) := ApplyEvent(db, clearingDays, now, e);
      (db', if outcome == UnknownPayment then Some(PaymentNotFound) else None)
  }

  /** What a webhook is answered, and that an accepted one is on record. */
  lemma WebhookAnswer(db: Db, clearingDays: nat, now: int, e: Event)
    ensures var (after, err) := HandleWebhook(db, clearingDays, now, e);
            && (err == Some(WebhookRefused) <==> e.id == Text("") || e.kind == EvUnknown || e.payment == 0)
            && (err == Some(PaymentNotFound) <==>
                  err != Some(WebhookRefused) && e.id !in db.events && e.payment !in db.payments)
            && (err.Some? ==> err.value in {WebhookRefused, PaymentNotFound} && after == db)
            && (err.None? ==> e.id in after.events)
            && (err.None? && e.id in db.events ==> after == db)
            && (err.None? && e.id !in db.events ==>
                  ApplyEvent(db, clearingDays, now, e) == (after, Applied) && after.events[e.id] == EventRow(e.payment, e.kind))
  {
    EventOutcome(db, clearingDays, now, e);
  }

  /** The provider's event sink. */
  function Emit(w: World, clearingDays: nat, now: int, e: Event): (r: (World, Option<Error>))
    ensures r.0.db.bookings.Keys == w.db.bookings.Keys && r.0.db.teachers == w.db.teachers
    ensures w.db.events.Keys <= r.0.db.events.Keys
  {
    var (db', err) := HandleWebhook(w.db, clearingDays, now, e);
    (w.(db := db'), err)
  }

  function DeclineEvent(payment: Id): Event {
    Event(Stable(OfDecline(payment), EvFailed), EvFailed, payment, NoRef, "the card was declined")
  }

  function VoidEvent(payment: Id): Event {
    Event(Stable(OfVoid(payment), EvFailed), EvFailed, payment, NoRef, "voided: booking cancelled")
  }

  function RefEvent(n: nat, kind: EventType, payment: Id): Event {
    Event(Stable(OfRef(n), kind), kind, payment, Fake(n), "")
  }

  // --- the fake provider -------------------------------------------------------

  function ProviderAuthorize(w: World, clearingDays: nat, now: int, payment: Id, token: string)
    : (r: (World, Result<ProviderRef, Error>))
    ensures r.0.db.bookings.Keys == w.db.bookings.Keys && r.0.db.teachers == w.db.teachers
    ensures w.db.events.Keys <= r.0.db.events.Keys
  {
    if token == PM_DECLINE then
      var (w', err) := Emit(w, clearingDays, now, DeclineEvent(payment));
      (w', Err(if err.Some? then err.value else Declined))
    else
      var n := w.fake.seqNo + 1;
      var fake' := w.fake.(seqNo := n,
                           tokenByRef := w.fake.tokenByRef[Fake(n) := token],
                           paymentByRef := w.fake.paymentByRef[Fake(n) := payment]);
      var (w', err) := Emit(w.(fake := fake'), clearingDays, now, RefEvent(n, EvAuthorized, payment));
      (w', if err.Some? then Err(err.value) else Ok(Fake(n)))
  }

  function ProviderCapture(w: World, clearingDays: nat, now: int, ref: ProviderRef): (r: (World, Option<Error>))
    ensures r.0.db.bookings.Keys == w.db.bookings.Keys && r.0.db.teachers == w.db.teachers
    ensures w.db.events.Keys <= r.0.db.events.Keys
  {
    var tried := w.(fake := w.fake.(captureTried := w.fake.captureTried + {ref}));
    if ref !in w.fake.tokenByRef || ref !in w.fake.paymentByRef || !ref.Fake? then (tried, Some(ProviderFailure))
    else if w.fake.tokenByRef[ref] == PM_CAPTURE_FAIL && ref !in w.fake.captureTried then (tried, Some(ProviderFailure))
    else Emit(tried, clearingDays, now, RefEvent(ref.seqNo, EvCaptured, w.fake.paymentByRef[ref]))
  }

  function ProviderRefund(w: World, clearingDays: nat, now: int, ref: ProviderRef): (r: (World, Option<Error>))
    ensures r.0.db.bookings.Keys == w.db.bookings.Keys && r.0.db.teachers == w.db.teachers
    ensures w.db.events.Keys <= r.0.db.events.Keys
  {
    if ref !in w.fake.tokenByRef || ref !in w.fake.paymentByRef || !ref.Fake? then (w, Some(ProviderFailure))
    else Emit(w, clearingDays, now, RefEvent(ref.seqNo, EvRefunded, w.fake.paymentByRef[ref]))
  }

  // --- the payments service ------------------------------------------------------

  function Authorize(w: World, clearingDays: nat, now: int, booking: Id, token: string): (r: (World, Option<Error>))
    ensures r.0.db.bookings.Keys == w.db.bookings.Keys && r.0.db.teachers == w.db.teachers
    ensures w.db.events.Keys <= r.0.db.events.Keys
  {
    if booking !in w.db.payments then (w, Some(PaymentNotFound))
    else
      match w.db.payments[booking].status
      case Authorized => (w, Some(AlreadyPaid))
      case Captured => (w, Some(AlreadyPaid))
      case Refunded => (w, Some(NotPayable))
      case _ =>
        var (w', r) := ProviderAuthorize(w, clearingDays, now, booking, token);
        (w', if r.Ok? then None else Some(r.error))
  }

  function Capture(w: World, clearingDays: nat, now: int, booking: Id): (r: (World, Option<Error>))
    ensures r.0.db.bookings.Keys == w.db.bookings.Keys && r.0.db.teachers == w.db.teachers
    ensures w.db.events.Keys <= r.0.db.events.Keys
  {
    if booking !in w.db.payments then (w, Some(PaymentNotFound))
    else
      var p := w.db.payments[booking];
      if p.status == Captured then (w, None)
      else if p.status != Authorized then (w, Some(NotPayable))
      else
        var (w', err) := ProviderCapture(w, clearingDays, now, p.ref);
        (w', if err.Some? then Some(CaptureFailed) else None)
  }

  function Refund(w: World, clearingDays: nat, now: int, booking: Id): (r: (World, Option<Error>))
    ensures r.0.db.bookings.Keys == w.db.bookings.Keys && r.0.db.teachers == w.db.teachers
    ensures w.db.events.Keys <= r.0.db.events.Keys
  {
    if booking !in w.db.payments then (w, None)
    else
      var p := w.db.payments[booking];
      match p.status
      case Refunded => (w, None)
      case Authorized => ProviderRefund(w, clearingDays, now, p.ref)
      case Captured => ProviderRefund(w, clearingDays, now, p.ref)
      case _ => Emit(w, clearingDays, now, VoidEvent(booking))
  }

  /** `translate`: payments errors as the bookings module names them. */
  function Translate(e: Error): Error {
    match e
    case Declined => PaymentFailed
    case NotPayable => InvalidTransition
    case PaymentNotFound => PaymentRequired
    case _ => e
  }
}
