/**
  The payout run (backend/internal/payouts/repository_postgres.go over
  backend/internal/db/sqlc/payouts.sql.go): what one run selects, records and marks.
*/
module Payouts {
  import opened Options
  import opened Tables
  import opened Sums

  type Ledger = map<Id, LedgerRow>

  /** Open and past its clearing deadline. */
  predicate PayableAt(r: LedgerRow, now: int) {
    IsOpen(r) && r.availableAt <= now
  }

  function Payable(ledger: Ledger, now: int): set<Id> {
    set id | id in ledger && PayableAt(ledger[id], now)
  }

  function Amounts(ledger: Ledger, ids: set<Id>): map<int, int> {
    map id | id in ids && id in ledger :: ledger[id].amount
  }

  ghost function TotalOf(ledger: Ledger, ids: set<Id>): int {
    Sum(Amounts(ledger, ids))
  }

  function TeachersOf(ledger: Ledger, ids: set<Id>): set<Id> {
    set id | id in ids && id in ledger :: ledger[id].teacher
  }

  function Settled(r: LedgerRow, batch: Id): LedgerRow {
    if r.state == Paid then r else r.(state := Paid, batch := Some(batch))
  }

  /** MarkLedgerRowsPaid: the listed rows, skipping any already paid. */
  function MarkPaid(ledger: Ledger, ids: set<Id>, batch: Id): Ledger {
    map id | id in ledger :: if id in ids then Settled(ledger[id], batch) else ledger[id]
  }

  /** The rows pointing at a batch. */
  function RowsOf(ledger: Ledger, batch: Id): set<Id> {
    set id | id in ledger && ledger[id].batch == Some(batch)
  }

  /** The batch row a run over `ids` records. */
  ghost function BatchFor(ledger: Ledger, ids: set<Id>, admin: Id): Batch {
    Batch(admin, TotalOf(ledger, ids), |TeachersOf(ledger, ids)|, |ids|)
  }

  /** A whole run with nothing else in flight; nothing payable means no batch. */
  ghost function SoloRun(db: Db, admin: Id, batch: Id, now: int): Db {
    var ids := Payable(db.ledger, now);
    if ids == {} then db
    else db.(batches := db.batches[batch := BatchFor(db.ledger, ids, admin)],
             ledger := MarkPaid(db.ledger, ids, batch))
  }

  /** A run while other transactions hold some rows: those are skipped. */
  ghost function RunSkipping(db: Db, held: set<Id>, admin: Id, batch: Id, now: int): Db {
    var ids := Payable(db.ledger, now) - held;
    if ids == {} then db
    else db.(batches := db.batches[batch := BatchFor(db.ledger, ids, admin)],
             ledger := MarkPaid(db.ledger, ids, batch))
  }

  /** With nothing held the run takes everything payable. */
  lemma NothingHeld(db: Db, admin: Id, batch: Id, now: int)
    ensures RunSkipping(db, {}, admin, batch, now) == SoloRun(db, admin, batch, now)
  {
    assert Payable(db.ledger, now) - {} == Payable(db.ledger, now);
  }

  /**
    What a run does, from the rows alone: the open rows past their deadline that nobody
    holds become paid and point at the new batch, which records who ran it, their sum and
    how many teachers and lessons they are; no such row, no batch.
  */
  lemma RunOutcome(db: Db, held: set<Id>, admin: Id, batch: Id, now: int)
    ensures var ids := set b | b in db.ledger && db.ledger[b].state in {Held, Available}
                               && db.ledger[b].availableAt <= now && b !in held;
            var after := RunSkipping(db, held, admin, batch, now);
            if ids == {} then after == db
            else
              && after == db.(ledger := after.ledger,
                              batches := db.batches[batch := Batch(admin, Sum(map b | b in ids :: db.ledger[b].amount),
                                                                   |set b | b in ids :: db.ledger[b].teacher|, |ids|)])
              && after.ledger.Keys == db.ledger.Keys
              && forall b :: b in db.ledger ==>
                   after.ledger[b] == if b in ids then db.ledger[b].(state := Paid, batch := Some(batch)) else db.ledger[b]
  {
    var ids := Payable(db.ledger, now) - held;
    assert ids == set b | b in db.ledger && db.ledger[b].state in {Held, Available}
                          && db.ledger[b].availableAt <= now && b !in held;
    assert Amounts(db.ledger, ids) == map b | b in ids :: db.ledger[b].amount;
    assert TeachersOf(db.ledger, ids) == set b | b in ids :: db.ledger[b].teacher;
  }

  // --- bookkeeping facts ---------------------------------------------------------

  /** Totals and teachers read only the amount and teacher columns of the listed rows. */
  lemma SameColumns(a: Ledger, b: Ledger, ids: set<Id>)
    requires forall id :: id in ids ==> (id in a <==> id in b)
    requires forall id :: id in ids && id in a ==> a[id].amount == b[id].amount && a[id].teacher == b[id].teacher
    ensures TotalOf(a, ids) == TotalOf(b, ids)
    ensures TeachersOf(a, ids) == TeachersOf(b, ids)
  {
    assert Amounts(a, ids) == Amounts(b, ids);
    forall t ensures t in TeachersOf(a, ids) <==> t in TeachersOf(b, ids) {
      if id :| id in ids && id in a && a[id].teacher == t { assert b[id].teacher == t; }
      if id :| id in ids && id in b && b[id].teacher == t { assert a[id].teacher == t; }
    }
  }

  lemma TotalDisjoint(ledger: Ledger, a: set<Id>, b: set<Id>)
    requires a !! b
    ensures TotalOf(ledger, a + b) == TotalOf(ledger, a) + TotalOf(ledger, b)
  {
    SumDisjoint(Amounts(ledger, a), Amounts(ledger, b));
    assert Amounts(ledger, a + b) == Amounts(ledger, a) + Amounts(ledger, b);
  }

  /** Each batch says what its rows say, and every paid row is in a batch. */
  ghost predicate BatchesBalance(ledger: Ledger, batches: map<Id, Batch>) {
    && (forall id :: id in ledger ==> (ledger[id].state == Paid <==> ledger[id].batch.Some?))
    && (forall id :: id in ledger && ledger[id].batch.Some? ==> ledger[id].batch.value in batches)
    && (forall b :: b in batches ==> batches[b] == BatchFor(ledger, RowsOf(ledger, b), batches[b].createdBy))
  }

  ghost function PaidRows(ledger: Ledger): set<Id> {
    set id | id in ledger && ledger[id].state == Paid
  }

  ghost function BatchTotals(batches: map<Id, Batch>): map<int, int> {
    map b | b in batches :: batches[b].total
  }

  /** All batch totals together are exactly the money paid out. */
  lemma BatchTotalsArePaid(ledger: Ledger, batches: map<Id, Batch>)
    requires BatchesBalance(ledger, batches)
    ensures Sum(BatchTotals(batches)) == TotalOf(ledger, PaidRows(ledger))
  {
    var m := Amounts(ledger, PaidRows(ledger));
    var group := BatchOf(ledger);
    var parts := BatchTotals(batches);
    forall k | k in m ensures group[k] in parts {
    }
    forall b | b in parts ensures parts[b] == Sum(InGroup(m, group, b)) {
      RowsOfAreGroup(ledger, batches, b);
    }
    SumByGroup(m, group, parts);
  }

  function BatchOf(ledger: Ledger): map<int, int> {
    map id | id in ledger && ledger[id].batch.Some? :: ledger[id].batch.value
  }

  lemma RowsOfAreGroup(ledger: Ledger, batches: map<Id, Batch>, b: Id)
    requires BatchesBalance(ledger, batches)
    ensures Amounts(ledger, PaidRows(ledger)).Keys <= BatchOf(ledger).Keys
    ensures InGroup(Amounts(ledger, PaidRows(ledger)), BatchOf(ledger), b) == Amounts(ledger, RowsOf(ledger, b))
  {
  }

  /**
    Recording a batch over open rows and marking them keeps every batch balanced.
    Shared by the solo run and by the commit of a concurrent one.
  */
  lemma CommitBalances(ledger: Ledger, batches: map<Id, Batch>, ids: set<Id>, batch: Id, row: Batch)
    requires BatchesBalance(ledger, batches)
    requires batch !in batches
    requires forall id :: id in ids ==> id in ledger && IsOpen(ledger[id])
    requires row == BatchFor(ledger, ids, row.createdBy)
    ensures BatchesBalance(MarkPaid(ledger, ids, batch), batches[batch := row])
    ensures RowsOf(MarkPaid(ledger, ids, batch), batch) == ids
  {
    hide TotalOf, TeachersOf;
    var after := MarkPaid(ledger, ids, batch);
    forall id ensures id in RowsOf(after, batch) <==> id in ids {
      if id in ledger && id !in ids { assert after[id] == ledger[id]; }
    }
    assert RowsOf(after, batch) == ids;
    SameColumns(ledger, after, ids);
    assert row == BatchFor(after, RowsOf(after, batch), row.createdBy);
    forall b | b in batches
      ensures batches[b] == BatchFor(after, RowsOf(after, b), batches[b].createdBy)
    {
      OtherBatchRows(ledger, batches, ids, batch, b);
      SameColumns(ledger, after, RowsOf(ledger, b));
    }
    forall id | id in after
      ensures after[id].state == Paid <==> after[id].batch.Some?
      ensures after[id].batch.Some? ==> after[id].batch.value in batches[batch := row]
    {
      assert id in ledger;
    }
  }

  lemma OtherBatchRows(ledger: Ledger, batches: map<Id, Batch>, ids: set<Id>, batch: Id, b: Id)
    requires BatchesBalance(ledger, batches) && b != batch
    requires forall id :: id in ids ==> id in ledger && IsOpen(ledger[id])
    ensures RowsOf(MarkPaid(ledger, ids, batch), b) == RowsOf(ledger, b)
  {
  }

  /** A row that is neither added to nor taken from any batch leaves the batches balanced. */
  lemma UnbatchedRowBalances(ledger: Ledger, batches: map<Id, Batch>, id: Id, r: LedgerRow)
    requires BatchesBalance(ledger, batches)
    requires r.batch == None && r.state != Paid
    requires id in ledger ==> ledger[id].batch == None
    ensures BatchesBalance(ledger[id := r], batches)
  {
    hide TotalOf, TeachersOf;
    var after := ledger[id := r];
    forall b | b in batches
      ensures batches[b] == BatchFor(after, RowsOf(after, b), batches[b].createdBy)
    {
      assert RowsOf(after, b) == RowsOf(ledger, b);
      SameColumns(ledger, after, RowsOf(ledger, b));
    }
  }
}
