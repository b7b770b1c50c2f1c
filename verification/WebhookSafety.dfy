/**
  What survives arbitrary webhook deliveries.  The payment updates in `ApplyEvent` are
  unguarded, so a payment's status can move anywhere; the ledger's guards still keep the
  earnings straight (backend/internal/db/sqlc/payments.sql.go).
*/
module WebhookSafety {
  import opened Options
  import opened Tables
  import opened Sums
  import opened Payouts
  import opened Webhooks
  import opened LedgerViews

  /** Booking rows are never deleted and never change teacher. */
  predicate KeepsTeachers(before: map<Id, Booking>, after: map<Id, Booking>) {
    forall b :: b in before ==> b in after && after[b].teacher == before[b].teacher
  }

  /** The ledger invariants that hold whatever is delivered. */
  ghost predicate LedgerSound(db: Db) {
    && Linked(db)
    && BatchesBalance(db.ledger, db.batches)
    && (forall b :: b in db.payments ==> PaymentSound(db.payments[b], b in db.ledger, b in db.ledger && IsOpen(db.ledger[b])))
  }

  predicate PaymentSound(p: Payment, hasRow: bool, openRow: bool) {
    && (hasRow <==> p.capturedAt.Some?)
    && (p.status == Captured ==> hasRow)
    && (p.status == Refunded ==> !openRow)
  }

  /** Rows never vanish or change amount, teacher or deadline; paid and reversed rows are final. */
  ghost predicate LedgerOnlySettles(before: Ledger, after: Ledger) {
    forall b :: b in before ==>
      && b in after
      && after[b].amount == before[b].amount
      && after[b].teacher == before[b].teacher
      && after[b].availableAt == before[b].availableAt
      && (!IsOpen(before[b]) ==> after[b] == before[b])
  }

  /** An event's effect is confined to its own payment, booking and ledger row. */
  lemma EffectIsLocal(db: Db, clearingDays: nat, e: Event, at: int)
    requires e.payment in db.payments
    ensures Local(db, Effect(db, clearingDays, at, e), e.payment)
  {
    var b := e.payment;
    var p := db.payments[b];
    match e.kind
    case EvAuthorized =>
      var q := p.(status := Authorized, ref := e.ref, lastError := "", authorizedAt := Some(at));
      MarkIsLocal(db, b, q);
      ConfirmIsLocal(db, MarkPayment(db, b, q), b);
    case EvCaptured =>
      MarkIsLocal(db, b, p.(status := Captured, capturedAt := Some(at)));
    case EvRefunded =>
      MarkIsLocal(db, b, p.(status := Refunded, refundedAt := Some(at)));
    case EvFailed =>
      MarkIsLocal(db, b, p.(status := Failed, lastError := e.message));
    case EvUnknown =>
      assert db.payments == db.payments[b := p];
  }

  ghost predicate Local(db: Db, after: Db, b: Id) {
    && after.events == db.events && after.batches == db.batches && after.teachers == db.teachers
    && KeepsTeachers(db.bookings, after.bookings)
    && b in db.payments && b in after.payments
    && after.payments == db.payments[b := after.payments[b]]
    && after.payments[b].amount == db.payments[b].amount
    && (after.ledger == db.ledger || (b in after.ledger && after.ledger == db.ledger[b := after.ledger[b]]))
    && (after.bookings == db.bookings
        || (b in db.bookings && b in after.bookings && after.bookings == db.bookings[b := after.bookings[b]]))
  }

  lemma MarkIsLocal(db: Db, b: Id, p: Payment)
    requires b in db.payments && p.amount == db.payments[b].amount
    ensures Local(db, MarkPayment(db, b, p), b)
  {
  }

  lemma ConfirmIsLocal(db: Db, marked: Db, b: Id)
    requires Local(db, marked, b)
    ensures Local(db, ConfirmBooking(marked, b), b)
  {
  }

  /** What the ledger invariants say about one payment and its row. */
  predicate FitsAt(db: Db, b: Id) {
    && b in db.payments && b in db.bookings
    && PaymentSound(db.payments[b], b in db.ledger, b in db.ledger && IsOpen(db.ledger[b]))
    && (b in db.ledger ==>
          && db.ledger[b].amount == db.payments[b].amount
          && db.ledger[b].teacher == db.bookings[b].teacher
          && (IsOpen(db.ledger[b]) ==> db.ledger[b].batch == None))
  }

  /** The row, if there was one, keeps its deadline, and once closed does not change; a changed row is in no batch. */
  predicate SettlesAt(db: Db, after: Db, b: Id) {
    && (b in db.ledger ==>
          && b in after.ledger
          && after.ledger[b].amount == db.ledger[b].amount
          && after.ledger[b].teacher == db.ledger[b].teacher
          && after.ledger[b].availableAt == db.ledger[b].availableAt
          && (!IsOpen(db.ledger[b]) ==> after.ledger[b] == db.ledger[b]))
    && (after.ledger != db.ledger ==>
          && b in after.ledger && after.ledger[b].batch == None && after.ledger[b].state != Paid
          && (b in db.ledger ==> db.ledger[b].batch == None))
  }

  lemma SoundAt(db: Db, b: Id)
    requires LedgerSound(db) && b in db.payments
    ensures FitsAt(db, b)
  {
  }

  /** At the event's own payment, the row and the payment still fit each other. */
  lemma EffectAtPayment(db: Db, clearingDays: nat, e: Event, at: int)
    requires FitsAt(db, e.payment)
    ensures var after := Effect(db, clearingDays, at, e); FitsAt(after, e.payment) && SettlesAt(db, after, e.payment)
  {
    match e.kind
    case EvAuthorized => assert Effect(db, clearingDays, at, e).ledger == db.ledger;
    case _ =>
  }

  lemma RecordingSound(db: Db, e: Event)
    requires LedgerSound(db) && e.payment in db.payments
    ensures LedgerSound(db.(events := db.events[e.id := EventRow(e.payment, e.kind)]))
  {
  }

  lemma EffectSound(db: Db, clearingDays: nat, e: Event, at: int)
    requires LedgerSound(db) && e.payment in db.payments
    ensures LedgerSound(Effect(db, clearingDays, at, e))
    ensures LedgerOnlySettles(db.ledger, Effect(db, clearingDays, at, e).ledger)
  {
    hide Effect, BatchesBalance, PaymentSound;
    var b := e.payment;
    var after := Effect(db, clearingDays, at, e);
    SoundAt(db, b);
    EffectIsLocal(db, clearingDays, e, at);
    EffectAtPayment(db, clearingDays, e, at);
    if after.ledger != db.ledger {
      UnbatchedRowBalances(db.ledger, db.batches, b, after.ledger[b]);
    }
    OnePaymentMoves(db, after, b);
  }

  lemma DeliverySound(db: Db, clearingDays: nat, e: Event, at: int)
    requires LedgerSound(db)
    ensures LedgerSound(ApplyEvent(db, clearingDays, at, e).0)
    ensures LedgerOnlySettles(db.ledger, ApplyEvent(db, clearingDays, at, e).0.ledger)
  {
    if ApplyEvent(db, clearingDays, at, e).1 == Applied {
      RecordingSound(db, e);
      EffectSound(db.(events := db.events[e.id := EventRow(e.payment, e.kind)]), clearingDays, e, at);
    }
  }

  /** A change confined to one payment and its row keeps the ledger sound if it does so there. */
  lemma OnePaymentMoves(db: Db, after: Db, b: Id)
    requires LedgerSound(db) && Confined(db, after, b)
    requires BatchesBalance(after.ledger, after.batches)
    requires PaymentSound(after.payments[b], b in after.ledger, b in after.ledger && IsOpen(after.ledger[b]))
    requires b in after.ledger ==>
               && after.ledger[b].amount == after.payments[b].amount
               && after.ledger[b].teacher == after.bookings[b].teacher
    ensures LedgerSound(after)
  {
    hide BatchesBalance, PaymentSound;
    LinksMove(db, after, b);
    forall c | c in after.payments
      ensures PaymentSound(after.payments[c], c in after.ledger, c in after.ledger && IsOpen(after.ledger[c]))
    {
      if c != b {
        assert PaymentSound(db.payments[c], c in db.ledger, c in db.ledger && IsOpen(db.ledger[c]));
      }
    }
  }

  /** One payment and its ledger row may differ, nothing else of the money. */
  ghost predicate Confined(db: Db, after: Db, b: Id) {
    && b in db.bookings && b in db.payments && b in after.payments
    && KeepsTeachers(db.bookings, after.bookings)
    && after.events == db.events
    && after.payments == db.payments[b := after.payments[b]]
    && (after.ledger == db.ledger || (b in after.ledger && after.ledger == db.ledger[b := after.ledger[b]]))
  }

  lemma LinksMove(db: Db, after: Db, b: Id)
    requires Linked(db) && Confined(db, after, b)
    requires b in after.ledger ==>
               && after.ledger[b].amount == after.payments[b].amount
               && after.ledger[b].teacher == after.bookings[b].teacher
    ensures Linked(after)
  {
  }

  lemma PayoutSound(db: Db, admin: Id, batch: Id, now: int)
    requires LedgerSound(db) && batch !in db.batches
    ensures LedgerSound(SoloRun(db, admin, batch, now))
    ensures LedgerOnlySettles(db.ledger, SoloRun(db, admin, batch, now).ledger)
  {
    hide BatchesBalance, TotalOf, TeachersOf;
    var ids := Payable(db.ledger, now);
    if ids != {} {
      CommitBalances(db.ledger, db.batches, ids, batch, BatchFor(db.ledger, ids, admin));
      assert MarkPaid(db.ledger, ids, batch).Keys == db.ledger.Keys;
    }
  }

  lemma IntentSound(db: Db, booking: Id, amount: nat)
    requires LedgerSound(db)
    ensures LedgerSound(OpenIntent(db, booking, amount))
    ensures LedgerOnlySettles(db.ledger, OpenIntent(db, booking, amount).ledger)
  {
  }

  lemma BookingWriteSound(db: Db, bs: map<Id, Booking>)
    requires LedgerSound(db) && KeepsTeachers(db.bookings, bs)
    ensures LedgerSound(db.(bookings := bs))
  {
  }

  lemma StepSound(db: Db, clearingDays: nat, a: Action)
    requires LedgerSound(db)
    ensures LedgerSound(Step(db, clearingDays, a))
    ensures LedgerOnlySettles(db.ledger, Step(db, clearingDays, a).ledger)
  {
    hide LedgerSound, LedgerOnlySettles, SoloRun, Effect;
    SettlesRefl(db.ledger);
    match a
    case Deliver(e, at) => DeliverySound(db, clearingDays, e, at);
    case NewIntent(b, amount) => IntentSound(db, b, amount);
    case WriteBooking(id, row) => BookingWriteSound(db, PutBooking(db, id, row).bookings);
    case PayOut(admin, batch, now) =>
      if batch !in db.batches { PayoutSound(db, admin, batch, now); }
  }

  lemma SettlesRefl(ledger: Ledger)
    ensures LedgerOnlySettles(ledger, ledger)
  {
  }

  /** The ledger invariants hold after any run, and any later run only settles rows. */
  lemma {:induction false} RunSound(db: Db, clearingDays: nat, actions: seq<Action>)
    requires LedgerSound(db)
    ensures LedgerSound(Run(db, clearingDays, actions))
    ensures LedgerOnlySettles(db.ledger, Run(db, clearingDays, actions).ledger)
    decreases |actions|
  {
    hide LedgerSound, Step;
    if actions != [] {
      StepSound(db, clearingDays, actions[0]);
      RunSound(Step(db, clearingDays, actions[0]), clearingDays, actions[1..]);
    }
  }

  /** The amounts of every payment that was ever captured. */
  ghost function CapturedAmounts(db: Db): map<int, int> {
    map b | b in db.payments && db.payments[b].capturedAt.Some? :: db.payments[b].amount
  }

  /** Every minor unit ever captured reads, at any instant, as held, available, paid or reversed. */
  lemma CapturedMoneyIsAccountedFor(db: Db, now: int)
    requires LedgerSound(db)
    ensures Sum(CapturedAmounts(db))
         == Total(db.ledger, Held, now) + Total(db.ledger, Available, now)
          + Total(db.ledger, Paid, now) + Total(db.ledger, Reversed, now)
  {
    hide LedgerSound, CapturedAmounts, Amounts, Total;
    ReadingsPartition(db.ledger, now);
    CapturedAreLedgered(db);
  }

  /** The payments ever captured are the ledger's rows, amount for amount. */
  lemma CapturedAreLedgered(db: Db)
    requires LedgerSound(db)
    ensures CapturedAmounts(db) == Amounts(db.ledger, db.ledger.Keys)
  {
    hide BatchesBalance;
  }

  /** A delivered refund never un-pays: a paid row stays paid whatever follows. */
  lemma PaidStaysPaid(db: Db, clearingDays: nat, actions: seq<Action>, b: Id)
    requires LedgerSound(db) && b in db.ledger && db.ledger[b].state == Paid
    ensures var after := Run(db, clearingDays, actions); b in after.ledger && after.ledger[b] == db.ledger[b]
  {
    RunSound(db, clearingDays, actions);
  }
}
