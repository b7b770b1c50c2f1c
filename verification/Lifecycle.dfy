/**
  The joint lifecycle of booking, payment, event log and ledger when every event comes
  from the service calls and the fake provider
  (backend/internal/bookings/service.go, backend/internal/payments/fake_provider.go).
*/
module Lifecycle {
  import opened Options
  import opened Tables
  import opened Webhooks
  import opened WebhookSafety
  import opened Money

  predicate HoldsMoney(s: PaymentStatus) {
    s == Authorized || s == Captured || s == Refunded
  }

  predicate Settled(s: PaymentStatus) {
    s == Captured || s == Refunded
  }

  /** What a booking's status says about its payment and ledger row. */
  ghost predicate BookingFits(db: Db, b: Id)
    requires b in db.bookings
  {
    match db.bookings[b].status
    case PendingPayment => (b in db.payments ==> !HoldsMoney(db.payments[b].status)) && b !in db.ledger
    case Confirmed => b in db.payments && HoldsMoney(db.payments[b].status)
    case Completed => b in db.payments && Settled(db.payments[b].status) && b in db.ledger
    case Cancelled => true
  }

  /** What a payment's status says about its ledger row, its price and its provider reference. */
  ghost predicate PaymentFits(w: World, b: Id)
    requires b in w.db.payments && b in w.db.bookings
  {
    var p := w.db.payments[b];
    && p.amount == w.db.bookings[b].price
    && (b in w.db.ledger ==> Settled(p.status))
    && (b in w.db.ledger && IsOpen(w.db.ledger[b]) ==> p.status == Captured)
    && (b in w.db.ledger && w.db.ledger[b].state == Reversed ==> p.status == Refunded)
    && (HoldsMoney(p.status) ==>
          p.ref.Fake? && p.ref in w.fake.tokenByRef && p.ref in w.fake.paymentByRef && w.fake.paymentByRef[p.ref] == b)
    && (p.status == Authorized ==> Stable(OfRef(p.ref.seqNo), EvCaptured) !in w.db.events)
    && (p.status == Authorized || p.status == Captured ==> Stable(OfRef(p.ref.seqNo), EvRefunded) !in w.db.events)
  }

  /** References are numbered up to the counter, and no event names one from the future. */
  ghost predicate ProviderFits(w: World) {
    && w.fake.tokenByRef.Keys == w.fake.paymentByRef.Keys
    && (forall ref :: ref in w.fake.tokenByRef ==> ref.Fake? && ref.seqNo <= w.fake.seqNo)
    && (forall n: nat, k :: Stable(OfRef(n), k) in w.db.events ==> n <= w.fake.seqNo)
  }

  /** The joint invariant. */
  ghost predicate Joint(w: World) {
    && LedgerSound(w.db)
    && ProviderFits(w)
    && NIL_ID !in w.db.bookings
    && (forall b :: b in w.db.bookings ==> BookingFits(w.db, b))
    && (forall b :: b in w.db.payments ==> PaymentFits(w, b))
  }

  /** The invariant at one booking. */
  lemma JointAt(w: World, b: Id)
    requires Joint(w) && b in w.db.bookings
    ensures b != NIL_ID && BookingFits(w.db, b)
    ensures b in w.db.payments ==> PaymentFits(w, b)
    ensures b in w.db.ledger ==> b in w.db.payments
    ensures b in w.db.payments && w.db.payments[b].status == Captured ==> b in w.db.ledger
  {
  }

  lemma PaymentAt(w: World, b: Id)
    requires Joint(w) && b in w.db.payments
    ensures b in w.db.bookings && PaymentFits(w, b)
  {
  }

  // --- one booking at a time -----------------------------------------------------------

  /** Everything that belongs to other bookings is untouched, and new references are `b`'s. */
  ghost predicate Elsewhere(w: World, v: World, b: Id) {
    && (forall c :: c != b ==>
          && (c in v.db.bookings <==> c in w.db.bookings)
          && (c in w.db.bookings ==> v.db.bookings[c] == w.db.bookings[c])
          && (c in v.db.payments <==> c in w.db.payments)
          && (c in w.db.payments ==> v.db.payments[c] == w.db.payments[c])
          && (c in v.db.ledger <==> c in w.db.ledger)
          && (c in w.db.ledger ==> v.db.ledger[c] == w.db.ledger[c]))
    && (forall ref :: ref in w.fake.tokenByRef ==> ref in v.fake.tokenByRef)
    && (forall ref :: ref in w.fake.paymentByRef ==>
          ref in v.fake.paymentByRef && v.fake.paymentByRef[ref] == w.fake.paymentByRef[ref])
    && (forall n: nat, k :: Stable(OfRef(n), k) in v.db.events && Stable(OfRef(n), k) !in w.db.events ==>
          Fake(n) in v.fake.paymentByRef && v.fake.paymentByRef[Fake(n)] == b)
  }

  lemma OneBookingMoves(w: World, v: World, b: Id)
    requires Joint(w) && Elsewhere(w, v, b)
    requires LedgerSound(v.db) && ProviderFits(v) && b != NIL_ID
    requires b in v.db.bookings && BookingFits(v.db, b)
    requires b in v.db.payments ==> PaymentFits(v, b)
    ensures Joint(v)
  {
    forall c | c in v.db.payments && c != b ensures PaymentFits(v, c) {
      assert PaymentFits(w, c);
    }
    forall c | c in v.db.bookings && c != b ensures BookingFits(v.db, c) {
      assert BookingFits(w.db, c);
    }
  }

  // --- the provider's events ---------------------------------------------------------

  /** A stable id made from a reference belongs to the payment that reference was handed out for. */
  ghost predicate IdBelongs(w: World, e: Event) {
    && e.id.Stable?
    && (e.id.source.OfRef? ==>
          var ref := Fake(e.id.source.seqNo);
          ref in w.fake.tokenByRef && ref in w.fake.paymentByRef && w.fake.paymentByRef[ref] == e.payment)
  }

  function Recorded(db: Db, e: Event): Db {
    db.(events := db.events[e.id := EventRow(e.payment, e.kind)])
  }

  /** An event whose id is new and whose payment exists goes through the sink, and stays local. */
  lemma FreshEventApplies(w: World, clearingDays: nat, now: int, e: Event)
    requires Joint(w)
    requires e.payment in w.db.payments && e.kind != EvUnknown && IdBelongs(w, e) && e.id !in w.db.events
    ensures Emit(w, clearingDays, now, e) == (w.(db := Effect(Recorded(w.db, e), clearingDays, now, e)), None)
    ensures var v := Emit(w, clearingDays, now, e).0;
            LedgerSound(v.db) && ProviderFits(v) && Elsewhere(w, v, e.payment)
  {
    EmitIsEffect(w, clearingDays, now, e);
    DeliverySound(w.db, clearingDays, e, now);
    EffectIsLocal(Recorded(w.db, e), clearingDays, e, now);
    LocalIsElsewhere(w, e, Effect(Recorded(w.db, e), clearingDays, now, e));
  }

  lemma EmitIsEffect(w: World, clearingDays: nat, now: int, e: Event)
    requires e.payment in w.db.payments && e.payment != NIL_ID
    requires e.kind != EvUnknown && e.id.Stable? && e.id !in w.db.events
    ensures ApplyEvent(w.db, clearingDays, now, e) == (Effect(Recorded(w.db, e), clearingDays, now, e), Applied)
    ensures Emit(w, clearingDays, now, e) == (w.(db := Effect(Recorded(w.db, e), clearingDays, now, e)), None)
  {
  }

  lemma LocalIsElsewhere(w: World, e: Event, after: Db)
    requires ProviderFits(w) && IdBelongs(w, e)
    requires Local(Recorded(w.db, e), after, e.payment)
    ensures Elsewhere(w, w.(db := after), e.payment) && ProviderFits(w.(db := after))
  {
  }

  lemma CapturedFits(w: World, clearingDays: nat, now: int, b: Id)
    requires Joint(w) && b in w.db.payments && w.db.payments[b].status == Authorized
    requires w.db.bookings[b].status == Confirmed
    ensures var e := RefEvent(w.db.payments[b].ref.seqNo, EvCaptured, b);
            var v := w.(db := Effect(Recorded(w.db, e), clearingDays, now, e));
            && v.db.bookings == w.db.bookings && v.db.teachers == w.db.teachers
            && v.db.payments[b].status == Captured && b in v.db.ledger
            && BookingFits(v.db, b) && PaymentFits(v, b)
  {
    assert PaymentFits(w, b);
  }

  lemma CaptureKeeps(w: World, clearingDays: nat, now: int, b: Id)
    requires Joint(w) && b in w.db.bookings && w.db.bookings[b].status == Confirmed
    ensures var (v, err) := Capture(w, clearingDays, now, b);
            && Joint(v)
            && v.db.bookings == w.db.bookings && v.db.teachers == w.db.teachers
            && (err == None ==> b in v.db.payments && v.db.payments[b].status == Captured && b in v.db.ledger)
            && (err != None ==> v.db == w.db)
  {
    hide Joint, LedgerSound, Elsewhere, ProviderFits, Emit, Effect;
    JointAt(w, b);
    var p := w.db.payments[b];
    if p.status == Authorized {
      var tried := w.(fake := w.fake.(captureTried := w.fake.captureTried + {p.ref}));
      TriedKeeps(w, p.ref);
      if !(w.fake.tokenByRef[p.ref] == PM_CAPTURE_FAIL && p.ref !in w.fake.captureTried) {
        var e := RefEvent(p.ref.seqNo, EvCaptured, b);
        FreshEventApplies(tried, clearingDays, now, e);
        CapturedFits(tried, clearingDays, now, b);
        OneBookingMoves(tried, Emit(tried, clearingDays, now, e).0, b);
      }
    }
  }

  /** Remembering an attempted capture changes nothing the invariant looks at. */
  lemma TriedKeeps(w: World, ref: ProviderRef)
    requires Joint(w)
    ensures Joint(w.(fake := w.fake.(captureTried := w.fake.captureTried + {ref})))
  {
  }

  lemma RefundedRow(w: World, clearingDays: nat, now: int, b: Id)
    requires Joint(w) && b in w.db.payments
    ensures var e := RefEvent(w.db.payments[b].ref.seqNo, EvRefunded, b);
            var after := Effect(Recorded(w.db, e), clearingDays, now, e);
            && after.bookings == w.db.bookings && after.teachers == w.db.teachers
            && after.payments[b] == w.db.payments[b].(status := Refunded, refundedAt := Some(now))
            && after.ledger == if b in w.db.ledger && IsOpen(w.db.ledger[b])
                               then w.db.ledger[b := w.db.ledger[b].(state := Reversed)] else w.db.ledger
    requires w.db.payments[b].ref.Fake?
  {
  }

  lemma RefundedFits(w: World, clearingDays: nat, now: int, b: Id)
    requires Joint(w) && b in w.db.payments
    requires w.db.payments[b].status == Authorized || w.db.payments[b].status == Captured
    ensures w.db.payments[b].ref.Fake?
    ensures var e := RefEvent(w.db.payments[b].ref.seqNo, EvRefunded, b);
            var v := w.(db := Effect(Recorded(w.db, e), clearingDays, now, e));
            BookingFits(v.db, b) && PaymentFits(v, b)
  {
    hide LedgerSound, Effect, Joint;
    PaymentAt(w, b);
    JointAt(w, b);
    RefundedRow(w, clearingDays, now, b);
  }

  lemma RefundKeeps(w: World, clearingDays: nat, now: int, b: Id)
    requires Joint(w) && b in w.db.bookings
    ensures var (v, err) := Refund(w, clearingDays, now, b);
            && Joint(v) && err == None
            && v.db.bookings == w.db.bookings && v.db.teachers == w.db.teachers
            && (b in w.db.payments && HoldsMoney(w.db.payments[b].status) ==>
                  b in v.db.payments && v.db.payments[b].status == Refunded)
            && (b in w.db.ledger && w.db.ledger[b].state == Paid ==> v.db.ledger == w.db.ledger)
            && (b in w.db.ledger && IsOpen(w.db.ledger[b]) ==> b in v.db.ledger && v.db.ledger[b].state == Reversed)
  {
    hide Joint, LedgerSound, Elsewhere, ProviderFits, Emit, Effect;
    JointAt(w, b);
    if b in w.db.payments {
      var p := w.db.payments[b];
      if p.status == Authorized || p.status == Captured {
        var e := RefEvent(p.ref.seqNo, EvRefunded, b);
        FreshEventApplies(w, clearingDays, now, e);
        RefundedFits(w, clearingDays, now, b);
        RefundedRow(w, clearingDays, now, b);
        OneBookingMoves(w, Emit(w, clearingDays, now, e).0, b);
      } else if p.status != Refunded {
        FailureKeeps(w, clearingDays, now, VoidEvent(b));
      }
    }
  }

  lemma FailedFits(w: World, clearingDays: nat, now: int, e: Event)
    requires Joint(w) && e.payment in w.db.payments && !HoldsMoney(w.db.payments[e.payment].status)
    requires e.kind == EvFailed
    ensures var v := w.(db := Effect(Recorded(w.db, e), clearingDays, now, e));
            && v.db.bookings == w.db.bookings && v.db.teachers == w.db.teachers && v.db.ledger == w.db.ledger
            && BookingFits(v.db, e.payment) && PaymentFits(v, e.payment)
  {
  }

  /** A decline or a void of an intent that holds no money, delivered once or again. */
  lemma FailureKeeps(w: World, clearingDays: nat, now: int, e: Event)
    requires Joint(w) && e.payment in w.db.payments && !HoldsMoney(w.db.payments[e.payment].status)
    requires e.kind == EvFailed && e.id.Stable? && !e.id.source.OfRef?
    ensures var (v, err) := Emit(w, clearingDays, now, e);
            && Joint(v) && err == None
            && v.db.bookings == w.db.bookings && v.db.teachers == w.db.teachers && v.db.ledger == w.db.ledger
  {
    assert e.payment != NIL_ID;
    if e.id !in w.db.events {
      FreshEventApplies(w, clearingDays, now, e);
      FailedFits(w, clearingDays, now, e);
      OneBookingMoves(w, Emit(w, clearingDays, now, e).0, e.payment);
    }
  }

  /** Handing out the next reference. */
  function NextRef(w: World, b: Id, token: string): World {
    var n := w.fake.seqNo + 1;
    w.(fake := w.fake.(seqNo := n, tokenByRef := w.fake.tokenByRef[Fake(n) := token],
                       paymentByRef := w.fake.paymentByRef[Fake(n) := b]))
  }

  /** No event of this reference has been recorded. */
  ghost predicate UnusedRef(db: Db, n: nat) {
    forall k :: Stable(OfRef(n), k) !in db.events
  }

  lemma NextRefKeeps(w: World, b: Id, token: string)
    requires Joint(w)
    ensures Joint(NextRef(w, b, token))
    ensures UnusedRef(w.db, w.fake.seqNo + 1)
  {
  }

  lemma AuthorizedFits(w: World, clearingDays: nat, now: int, b: Id, n: nat)
    requires Joint(w) && b in w.db.payments && w.db.bookings[b].status == PendingPayment
    requires Fake(n) in w.fake.tokenByRef && Fake(n) in w.fake.paymentByRef && w.fake.paymentByRef[Fake(n)] == b
    requires UnusedRef(w.db, n)
    ensures var e := RefEvent(n, EvAuthorized, b);
            var v := w.(db := Effect(Recorded(w.db, e), clearingDays, now, e));
            && v.db.bookings == w.db.bookings[b := w.db.bookings[b].(status := Confirmed)]
            && v.db.teachers == w.db.teachers
            && v.db.payments[b].status == Authorized
            && BookingFits(v.db, b) && PaymentFits(v, b)
  {
  }

  lemma AuthorizeKeeps(w: World, clearingDays: nat, now: int, b: Id, token: string)
    requires Joint(w) && b in w.db.bookings && w.db.bookings[b].status == PendingPayment
    ensures var (v, err) := Authorize(w, clearingDays, now, b, token);
            && Joint(v) && v.db.teachers == w.db.teachers
            && (err == None <==> b in w.db.payments && token != PM_DECLINE)
            && (err == None ==>
                  && v.db.bookings == w.db.bookings[b := w.db.bookings[b].(status := Confirmed)]
                  && b in v.db.payments && v.db.payments[b].status == Authorized)
            && (err != None ==> v.db.bookings == w.db.bookings)
  {
    hide Joint, LedgerSound, Elsewhere, ProviderFits, Emit, Effect;
    JointAt(w, b);
    if b in w.db.payments {
      if token == PM_DECLINE {
        FailureKeeps(w, clearingDays, now, DeclineEvent(b));
      } else {
        var handed := NextRef(w, b, token);
        var n := handed.fake.seqNo;
        NextRefKeeps(w, b, token);
        FreshEventApplies(handed, clearingDays, now, RefEvent(n, EvAuthorized, b));
        AuthorizedFits(handed, clearingDays, now, b, n);
        OneBookingMoves(handed, Emit(handed, clearingDays, now, RefEvent(n, EvAuthorized, b)).0, b);
      }
    }
  }
}
