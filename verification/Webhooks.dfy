/**
  Applying one provider event (backend/internal/payments/repository_postgres.go with
  the statements of backend/internal/db/sqlc/payments.sql.go), as a function on the
  tables, and what any sequence of deliveries amounts to.
*/
module Webhooks {
  import opened Options
  import opened Tables
  import opened UtcClock
  import opened Payouts

  datatype Outcome = Applied | Duplicate | UnknownPayment | UnknownType

  function FreshPayment(amount: nat): Payment {
    Payment(RequiresPayment, NoRef, amount, "", None, None, None)
  }

  /** CreatePayment: insert, or keep the row already there. */
  function OpenIntent(db: Db, booking: Id, amount: nat): Db {
    if booking !in db.bookings || booking in db.payments then db
    else db.(payments := db.payments[booking := FreshPayment(amount)])
  }

  function ConfirmBooking(db: Db, booking: Id): (r: Db)
    ensures r == db.(bookings := r.bookings) && r.bookings.Keys == db.bookings.Keys
  {
    if booking in db.bookings && db.bookings[booking].status == PendingPayment
    then db.(bookings := db.bookings[booking := db.bookings[booking].(status := Confirmed)])
    else db
  }

  /** InsertLedgerHeld: nothing without the booking, nothing over an existing row. */
  function OpenLedger(db: Db, booking: Id, amount: nat, availableAt: int): (r: Db)
    ensures r == db.(ledger := r.ledger)
  {
    if booking in db.bookings && booking !in db.ledger
    then db.(ledger := db.ledger[booking := LedgerRow(db.bookings[booking].teacher, amount, Held, availableAt, None)])
    else db
  }

  /** MarkLedgerReversed: not over a reversed or paid row. */
  function ReverseLedger(db: Db, booking: Id): (r: Db)
    ensures r == db.(ledger := r.ledger)
  {
    if booking in db.ledger && IsOpen(db.ledger[booking])
    then db.(ledger := db.ledger[booking := db.ledger[booking].(state := Reversed)])
    else db
  }

  function MarkPayment(db: Db, booking: Id, p: Payment): (r: Db)
    requires booking in db.payments
    ensures r == db.(payments := r.payments) && r.payments.Keys == db.payments.Keys
  {
    db.(payments := db.payments[booking := p])
  }

  /** The state change an event stands for, on a payment known to exist. */
  function Effect(db: Db, clearingDays: nat, now: int, e: Event): (r: Db)
    requires e.payment in db.payments
    ensures r.payments.Keys == db.payments.Keys && r.bookings.Keys == db.bookings.Keys
    ensures r.events == db.events && r.batches == db.batches && r.teachers == db.teachers
  {
    var b := e.payment;
    var p := db.payments[b];
    match e.kind
    case EvAuthorized =>
      ConfirmBooking(MarkPayment(db, b, p.(status := Authorized, ref := e.ref, lastError := "", authorizedAt := Some(now))), b)
    case EvCaptured =>
      OpenLedger(MarkPayment(db, b, p.(status := Captured, capturedAt := Some(now))), b, p.amount, now + clearingDays * DAY)
    case EvRefunded =>
      ReverseLedger(MarkPayment(db, b, p.(status := Refunded, refundedAt := Some(now))), b)
    case EvFailed =>
      MarkPayment(db, b, p.(status := Failed, lastError := e.message))
    case EvUnknown => db
  }

  /** `ApplyEvent`: record first; a duplicate, an unknown payment or an unknown type changes nothing. */
  function ApplyEvent(db: Db, clearingDays: nat, now: int, e: Event): (r: (Db, Outcome))
    ensures r.1 != Applied ==> r.0 == db
    ensures r.0.bookings.Keys == db.bookings.Keys && r.0.teachers == db.teachers
    ensures db.events.Keys <= r.0.events.Keys
  {
    if e.id in db.events then (db, Duplicate)
    else if e.payment !in db.payments then (db, UnknownPayment)
    else if e.kind == EvUnknown then (db, UnknownType)
    else
      var recorded := db.(events := db.events[e.id := EventRow(e.payment, e.kind)]);
      (Effect(recorded, clearingDays, now, e), Applied)
  }

  /** The row an event leaves in the payments table. */
  predicate PaymentBecomes(p: Payment, q: Payment, e: Event, now: int) {
    && q.amount == p.amount
    && (match e.kind
        case EvAuthorized => q.status == Authorized && q.ref == e.ref && q.lastError == ""
        case EvCaptured => q.status == Captured && q.ref == p.ref && q.lastError == p.lastError
        case EvRefunded => q.status == Refunded && q.ref == p.ref && q.lastError == p.lastError
        case EvFailed => q.status == Failed && q.ref == p.ref && q.lastError == e.message
        case EvUnknown => false)
    && q.authorizedAt == (if e.kind == EvAuthorized then Some(now) else p.authorizedAt)
    && q.capturedAt == (if e.kind == EvCaptured then Some(now) else p.capturedAt)
    && q.refundedAt == (if e.kind == EvRefunded then Some(now) else p.refundedAt)
  }

  /**
    When an event is taken and what it does: its payment moves to the status it names; an
    authorization confirms a pending booking, a capture opens a held row, a refund reverses
    an open one; nothing else is written.
  */
  lemma EventOutcome(db: Db, clearingDays: nat, now: int, e: Event)
    ensures var (after, outcome) := ApplyEvent(db, clearingDays, now, e);
            var b := e.payment;
            && (outcome == Applied <==> e.id !in db.events && b in db.payments && e.kind != EvUnknown)
            && (outcome == Duplicate <==> e.id in db.events)
            && (outcome == UnknownPayment <==> e.id !in db.events && b !in db.payments)
            && (outcome != Applied ==> after == db)
            && (outcome == Applied ==>
                  && b in after.payments && PaymentBecomes(db.payments[b], after.payments[b], e, now)
                  && after == Db(
                       db.teachers,
                       if e.kind == EvAuthorized && b in db.bookings && db.bookings[b].status == PendingPayment
                       then db.bookings[b := db.bookings[b].(status := Confirmed)] else db.bookings,
                       db.payments[b := after.payments[b]],
                       db.events[e.id := EventRow(b, e.kind)],
                       if e.kind == EvCaptured && b in db.bookings && b !in db.ledger
                       then db.ledger[b := LedgerRow(db.bookings[b].teacher, db.payments[b].amount, Held,
                                                     now + clearingDays * DAY, None)]
                       else if e.kind == EvRefunded && b in db.ledger && db.ledger[b].state in {Held, Available}
                       then db.ledger[b := db.ledger[b].(state := Reversed)]
                       else db.ledger,
                       db.batches))
  {
  }

  // --- exactly once ------------------------------------------------------------

  /** Everything that reaches the money tables: a delivery, a new intent, any other write to a booking row, a payout run. */
  datatype Action =
    | Deliver(event: Event, at: int)
    | NewIntent(booking: Id, amount: nat)
    | WriteBooking(id: Id, row: Booking)
    | PayOut(admin: Id, batch: Id, now: int)

  /** Inserting or updating one booking row; no statement updates the teacher column. */
  function PutBooking(db: Db, id: Id, row: Booking): Db {
    db.(bookings := db.bookings[id := if id in db.bookings then row.(teacher := db.bookings[id].teacher) else row])
  }

  ghost function Step(db: Db, clearingDays: nat, a: Action): Db {
    match a
    case Deliver(e, at) => ApplyEvent(db, clearingDays, at, e).0
    case NewIntent(b, amount) => OpenIntent(db, b, amount)
    case WriteBooking(id, row) => PutBooking(db, id, row)
    case PayOut(admin, batch, now) => if batch in db.batches then db else SoloRun(db, admin, batch, now)
  }

  ghost function Run(db: Db, clearingDays: nat, actions: seq<Action>): Db
    decreases |actions|
  {
    if actions == [] then db else Run(Step(db, clearingDays, actions[0]), clearingDays, actions[1..])
  }

  /**
    The delivery sequence with every repeat and every refused delivery struck out; other
    writes stay where they are.  It looks at ids, known payments and types only, never at
    what a delivery did.
  */
  function FirstDeliveries(actions: seq<Action>, seen: set<EventId>, known: set<Id>, bookings: set<Id>): seq<Action>
    decreases |actions|
  {
    if actions == [] then []
    else
      match actions[0]
      case Deliver(e, _) =>
        if e.id in seen || e.payment !in known || e.kind == EvUnknown
        then FirstDeliveries(actions[1..], seen, known, bookings)
        else [actions[0]] + FirstDeliveries(actions[1..], seen + {e.id}, known, bookings)
      case NewIntent(b, _) =>
        [actions[0]] + FirstDeliveries(actions[1..], seen, if b in bookings then known + {b} else known, bookings)
      case WriteBooking(id, _) =>
        [actions[0]] + FirstDeliveries(actions[1..], seen, known, bookings + {id})
      case PayOut(_, _, _) =>
        [actions[0]] + FirstDeliveries(actions[1..], seen, known, bookings)
  }

  ghost predicate NoRepeatedIds(actions: seq<Action>) {
    forall i, j :: 0 <= i < j < |actions| && actions[i].Deliver? && actions[j].Deliver? ==>
      actions[i].event.id != actions[j].event.id
  }

  ghost predicate Delivers(actions: seq<Action>, id: EventId) {
    exists i :: 0 <= i < |actions| && actions[i].Deliver? && actions[i].event.id == id
  }

  /** One step's effect on the three key sets the filter follows. */
  lemma StepKeys(db: Db, clearingDays: nat, a: Action)
    ensures var next := Step(db, clearingDays, a);
            && next.bookings.Keys == db.bookings.Keys + (if a.WriteBooking? then {a.id} else {})
            && match a
               case Deliver(e, at) =>
                 && next.payments.Keys == db.payments.Keys
                 && next.events.Keys == db.events.Keys
                    + (if e.id !in db.events && e.payment in db.payments && e.kind != EvUnknown then {e.id} else {})
               case NewIntent(b, _) =>
                 && next.payments.Keys == db.payments.Keys + (if b in db.bookings then {b} else {})
                 && next.events == db.events
               case _ => next.payments == db.payments && next.events == db.events
  {
    hide BatchFor, MarkPaid, Effect;
  }

  /** The filter on the tables' own keys. */
  function Kept(db: Db, actions: seq<Action>): seq<Action> {
    FirstDeliveries(actions, db.events.Keys, db.payments.Keys, db.bookings.Keys)
  }

  predicate Keeps(db: Db, a: Action) {
    a.Deliver? ==> a.event.id !in db.events && a.event.payment in db.payments && a.event.kind != EvUnknown
  }

  /** The filter keeps a first action exactly when it takes effect, and carries on from the tables it leaves. */
  lemma KeptSplits(db: Db, clearingDays: nat, actions: seq<Action>)
    requires actions != []
    ensures Kept(db, actions)
         == (if Keeps(db, actions[0]) then [actions[0]] else []) + Kept(Step(db, clearingDays, actions[0]), actions[1..])
    ensures !Keeps(db, actions[0]) ==> Step(db, clearingDays, actions[0]) == db
  {
    hide Effect;
    StepKeys(db, clearingDays, actions[0]);
  }

  /**
    Exactly once: any delivery sequence leaves the tables as its first accepted
    delivery of each event id does, and those are all that the log gains.
  */
  lemma {:induction false} ExactlyOnce(db: Db, clearingDays: nat, actions: seq<Action>)
    ensures var kept := FirstDeliveries(actions, db.events.Keys, db.payments.Keys, db.bookings.Keys);
            && Run(db, clearingDays, actions) == Run(db, clearingDays, kept)
            && NoRepeatedIds(kept)
            && (forall id :: Delivers(kept, id) ==> id !in db.events)
            && (forall id :: id in Run(db, clearingDays, actions).events <==> id in db.events || Delivers(kept, id))
    decreases |actions|
  {
    hide Step, FirstDeliveries, Delivers;
    NothingDelivered();
    if actions != [] {
      var a := actions[0];
      var next := Step(db, clearingDays, a);
      StepKeys(db, clearingDays, a);
      KeptSplits(db, clearingDays, actions);
      ExactlyOnce(next, clearingDays, actions[1..]);
      var rest := Kept(next, actions[1..]);
      if Keeps(db, a) {
        DeliversHead(a, rest);
        HeadStaysFirst(a, rest);
        assert ([a] + rest)[1..] == rest;
      } else {
        assert [] + rest == rest;
      }
    } else {
      NothingKept(db);
    }
  }

  lemma NothingKept(db: Db)
    ensures Kept(db, []) == []
  {
  }

  lemma NothingDelivered()
    ensures forall id :: !Delivers([], id)
  {
  }

  lemma HeadStaysFirst(a: Action, rest: seq<Action>)
    requires NoRepeatedIds(rest) && (a.Deliver? ==> !Delivers(rest, a.event.id))
    ensures NoRepeatedIds([a] + rest)
  {
  }

  lemma DeliversHead(a: Action, rest: seq<Action>)
    ensures forall id :: Delivers([a] + rest, id) <==> (a.Deliver? && a.event.id == id) || Delivers(rest, id)
  {
    var kept := [a] + rest;
    forall id
      ensures Delivers(kept, id) <==> (a.Deliver? && a.event.id == id) || Delivers(rest, id)
    {
      if a.Deliver? && a.event.id == id { assert kept[0].Deliver? && kept[0].event.id == id; }
      if i :| 0 <= i < |rest| && rest[i].Deliver? && rest[i].event.id == id {
        assert kept[i + 1].Deliver? && kept[i + 1].event.id == id;
      }
    }
  }

  /** Every delivery the filter keeps is applied when its turn comes. */
  lemma {:induction false} KeptAreApplied(db: Db, clearingDays: nat, actions: seq<Action>, i: nat)
    requires var kept := FirstDeliveries(actions, db.events.Keys, db.payments.Keys, db.bookings.Keys);
             i < |kept| && kept[i].Deliver?
    ensures var kept := FirstDeliveries(actions, db.events.Keys, db.payments.Keys, db.bookings.Keys);
            ApplyEvent(Run(db, clearingDays, kept[..i]), clearingDays, kept[i].at, kept[i].event).1 == Applied
    decreases |actions|
  {
    hide Step, FirstDeliveries, ApplyEvent;
    NothingKept(db);
    var a := actions[0];
    var next := Step(db, clearingDays, a);
    KeptSplits(db, clearingDays, actions);
    var rest := Kept(next, actions[1..]);
    if !Keeps(db, a) {
      assert [] + rest == rest;
      KeptAreApplied(next, clearingDays, actions[1..], i);
    } else if i == 0 {
      KeptApplies(db, clearingDays, a);
    } else {
      KeptAreApplied(next, clearingDays, actions[1..], i - 1);
      assert ([a] + rest)[..i] == [a] + rest[..i - 1];
      assert ([a] + rest[..i - 1])[1..] == rest[..i - 1];
    }
  }

  lemma KeptApplies(db: Db, clearingDays: nat, a: Action)
    requires a.Deliver? && Keeps(db, a)
    ensures ApplyEvent(db, clearingDays, a.at, a.event).1 == Applied
  {
  }

  /** A delivery refused for an unknown payment leaves no trace and succeeds once the intent exists. */
  lemma RefusedThenAccepted(db: Db, clearingDays: nat, e: Event, at: int, later: int, amount: nat)
    requires e.payment !in db.payments && e.payment in db.bookings
    requires e.id !in db.events && e.kind != EvUnknown
    ensures ApplyEvent(db, clearingDays, at, e) == (db, UnknownPayment)
    ensures ApplyEvent(Run(db, clearingDays, [Deliver(e, at), NewIntent(e.payment, amount)]), clearingDays, later, e).1 == Applied
  {
    RunTwo(db, clearingDays, Deliver(e, at), NewIntent(e.payment, amount));
  }

  lemma RunTwo(db: Db, clearingDays: nat, first: Action, second: Action)
    ensures Run(db, clearingDays, [first, second]) == Step(Step(db, clearingDays, first), clearingDays, second)
  {
    hide Step;
    var rest := [second];
    assert [first, second][1..] == rest && rest[1..] == [];
    assert Run(Step(db, clearingDays, first), clearingDays, rest)
        == Run(Step(Step(db, clearingDays, first), clearingDays, second), clearingDays, []);
  }
}
