/**
  The exact rows each money call writes in a reachable state: the payment, the ledger row,
  the event log and the provider's memory
  (backend/internal/payments/service.go, fake_provider.go, repository_postgres.go).
*/
module MoneyOutcomes {
  import opened Options
  import opened UtcClock
  import opened Tables
  import opened Webhooks
  import opened WebhookSafety
  import opened Money
  import opened Lifecycle

  /** One payment row, one event and, for a first capture or a refund, one ledger row are new. */
  function Wrote(db: Db, b: Id, p: Payment, ledger: map<Id, LedgerRow>, id: EventId, kind: EventType): Db {
    db.(payments := db.payments[b := p], ledger := ledger, events := db.events[id := EventRow(b, kind)])
  }

  /** Paying a pending booking hands out the next reference, holds the money and confirms the booking. */
  lemma AuthorizeWrites(w: World, clearingDays: nat, now: int, b: Id, token: string)
    requires Joint(w) && b in w.db.bookings && w.db.bookings[b].status == PendingPayment
    requires b in w.db.payments && token != "pm_decline"
    ensures var n := w.fake.seqNo + 1;
            var p := w.db.payments[b];
            Authorize(w, clearingDays, now, b, token)
            == (World(
                  Wrote(w.db, b, p.(status := Authorized, ref := Fake(n), lastError := "", authorizedAt := Some(now)),
                        w.db.ledger, Stable(OfRef(n), EvAuthorized), EvAuthorized)
                    .(bookings := w.db.bookings[b := w.db.bookings[b].(status := Confirmed)]),
                  Provider(n, w.fake.tokenByRef[Fake(n) := token], w.fake.paymentByRef[Fake(n) := b], w.fake.captureTried)),
                None)
  {
    hide LedgerSound, ApplyEvent;
    JointAt(w, b);
    var n := w.fake.seqNo + 1;
    assert Stable(OfRef(n), EvAuthorized) !in w.db.events;
    EventOutcome(w.db, clearingDays, now, RefEvent(n, EvAuthorized, b));
  }

  /** Capturing held money stamps the payment and opens one held ledger row for the booking's teacher and price. */
  lemma CaptureWrites(w: World, clearingDays: nat, now: int, b: Id)
    requires Joint(w) && b in w.db.bookings && b in w.db.payments && w.db.payments[b].status == Authorized
    requires Capture(w, clearingDays, now, b).1 == None
    ensures var p := w.db.payments[b];
            && p.ref.Fake?
            && Capture(w, clearingDays, now, b).0
               == World(
                    Wrote(w.db, b, p.(status := Captured, capturedAt := Some(now)),
                          w.db.ledger[b := LedgerRow(w.db.bookings[b].teacher, w.db.bookings[b].price, Held,
                                                     now + clearingDays * DAY, None)],
                          Stable(OfRef(p.ref.seqNo), EvCaptured), EvCaptured),
                    w.fake.(captureTried := w.fake.captureTried + {p.ref}))
  {
    hide LedgerSound, ApplyEvent;
    JointAt(w, b);
    EventOutcome(w.db, clearingDays, now, RefEvent(w.db.payments[b].ref.seqNo, EvCaptured, b));
  }

  /**
    Giving money back: held or captured money is refunded and an open row reversed; an
    intent that never held any is voided, once; nothing else changes.
  */
  lemma RefundWrites(w: World, clearingDays: nat, now: int, b: Id)
    requires Joint(w) && b in w.db.bookings && b in w.db.payments
    ensures var p := w.db.payments[b];
            var void := Stable(OfVoid(b), EvFailed);
            && (p.status in {Authorized, Captured} ==> p.ref.Fake?)
            && Refund(w, clearingDays, now, b).0
               == (if p.status in {Authorized, Captured} then
                     w.(db := Wrote(w.db, b, p.(status := Refunded, refundedAt := Some(now)),
                                    if b in w.db.ledger && w.db.ledger[b].state in {Held, Available}
                                    then w.db.ledger[b := w.db.ledger[b].(state := Reversed)] else w.db.ledger,
                                    Stable(OfRef(p.ref.seqNo), EvRefunded), EvRefunded))
                   else if p.status == Refunded || void in w.db.events then w
                   else w.(db := Wrote(w.db, b, p.(status := Failed, lastError := "voided: booking cancelled"),
                                       w.db.ledger, void, EvFailed)))
  {
    hide Joint, LedgerSound, ApplyEvent;
    JointAt(w, b);
    var p := w.db.payments[b];
    if p.status in {Authorized, Captured} {
      EventOutcome(w.db, clearingDays, now, RefEvent(p.ref.seqNo, EvRefunded, b));
    } else {
      EventOutcome(w.db, clearingDays, now, VoidEvent(b));
    }
  }
}
