/**
  Payout runs, refunds, captures and the clock interleaving freely.  A run locks with
  FOR UPDATE SKIP LOCKED, so it takes the payable rows nobody holds; a refund of a held
  row waits and re-checks its guard once the row is free.
*/
module PayoutProtocol {
  import opened Options
  import opened Tables
  import opened Sums
  import opened Payouts
  import UtcClock
  import Webhooks

  /** A run between its lock and its commit: what it selected and what it added up. */
  datatype Plan = Plan(admin: Id, ids: set<Id>, total: int, teacherCount: nat)

  /** A refund transaction: waiting for its row, or holding it. */
  datatype RefundTx = RefundTx(row: Id, holding: bool)

  datatype State = State(
    ledger: Ledger, batches: map<Id, Batch>, runs: map<Id, Plan>, refunds: map<Id, RefundTx>, clock: int)

  datatype Step =
    | Capture(row: Id, teacher: Id, amount: nat)
    | Tick(nanoseconds: nat)
    | RunLock(tx: Id, admin: Id)
    | RunCommit(tx: Id, batch: Id)
    | RunAbort(tx: Id)
    | RefundAsk(tx: Id, row: Id)
    | RefundGrant(tx: Id)
    | RefundCommit(tx: Id)
    | RefundAbort(tx: Id)

  predicate HeldByRun(s: State, row: Id) {
    exists tx :: tx in s.runs && row in s.runs[tx].ids
  }

  predicate HeldByRefund(s: State, row: Id) {
    exists tx :: tx in s.refunds && s.refunds[tx].holding && s.refunds[tx].row == row
  }

  /** What SKIP LOCKED leaves: payable rows no transaction holds. */
  function Lockable(s: State): set<Id> {
    set id | id in Payable(s.ledger, s.clock) && !HeldByRun(s, id) && !HeldByRefund(s, id)
  }

  /** One step; a step that is not enabled leaves the state alone. */
  ghost function Next(s: State, clearingDays: nat, step: Step): State {
    match step
    case Capture(row, teacher, amount) =>
      if row in s.ledger then s
      else s.(ledger := s.ledger[row := LedgerRow(teacher, amount, Held, s.clock + clearingDays * UtcClock.DAY, None)])
    case Tick(n) => s.(clock := s.clock + n)
    case RunLock(tx, admin) =>
      var ids := Lockable(s);
      if tx in s.runs || ids == {} then s
      else s.(runs := s.runs[tx := Plan(admin, ids, TotalOf(s.ledger, ids), |TeachersOf(s.ledger, ids)|)])
    case RunCommit(tx, batch) =>
      if tx !in s.runs || batch in s.batches then s
      else
        var plan := s.runs[tx];
        s.(batches := s.batches[batch := Batch(plan.admin, plan.total, plan.teacherCount, |plan.ids|)],
           ledger := MarkPaid(s.ledger, plan.ids, batch),
           runs := s.runs - {tx})
    case RunAbort(tx) => s.(runs := s.runs - {tx})
    case RefundAsk(tx, row) =>
      if tx in s.refunds then s else s.(refunds := s.refunds[tx := RefundTx(row, false)])
    case RefundGrant(tx) =>
      if tx !in s.refunds || s.refunds[tx].holding || HeldByRun(s, s.refunds[tx].row) || HeldByRefund(s, s.refunds[tx].row)
      then s
      else
        var row := s.refunds[tx].row;
        if row in s.ledger && IsOpen(s.ledger[row])
        then s.(refunds := s.refunds[tx := RefundTx(row, true)])
        else s.(refunds := s.refunds - {tx})
    case RefundCommit(tx) =>
      if tx !in s.refunds || !s.refunds[tx].holding || s.refunds[tx].row !in s.ledger then s
      else
        var row := s.refunds[tx].row;
        s.(ledger := s.ledger[row := s.ledger[row].(state := Reversed)], refunds := s.refunds - {tx})
    case RefundAbort(tx) => s.(refunds := s.refunds - {tx})
  }

  ghost function Run(s: State, clearingDays: nat, steps: seq<Step>): State
    decreases |steps|
  {
    if steps == [] then s else Run(Next(s, clearingDays, steps[0]), clearingDays, steps[1..])
  }

  const START: State := State(map[], map[], map[], map[], 0)

  // --- safety ----------------------------------------------------------------------

  /** No row is in two hands. */
  ghost predicate Exclusive(s: State) {
    && (forall t, u :: t in s.runs && u in s.runs && t != u ==> s.runs[t].ids !! s.runs[u].ids)
    && (forall t, u :: t in s.runs && u in s.refunds && s.refunds[u].holding ==> s.refunds[u].row !in s.runs[t].ids)
    && (forall t, u :: t in s.refunds && u in s.refunds && t != u && s.refunds[t].holding && s.refunds[u].holding ==>
          s.refunds[t].row != s.refunds[u].row)
  }

  /** What a run added up at lock time is still what its rows say, and they are still payable. */
  ghost predicate PlanFresh(ledger: Ledger, clock: int, plan: Plan) {
    && (forall id :: id in plan.ids ==> id in ledger && PayableAt(ledger[id], clock))
    && plan.total == TotalOf(ledger, plan.ids)
    && plan.teacherCount == |TeachersOf(ledger, plan.ids)|
  }

  ghost predicate PlansFresh(s: State) {
    forall t :: t in s.runs ==> PlanFresh(s.ledger, s.clock, s.runs[t])
  }

  ghost predicate HoldersOpen(s: State) {
    forall t :: t in s.refunds && s.refunds[t].holding ==> s.refunds[t].row in s.ledger && IsOpen(s.ledger[s.refunds[t].row])
  }

  ghost predicate Safe(s: State) {
    Exclusive(s) && PlansFresh(s) && HoldersOpen(s) && BatchesBalance(s.ledger, s.batches)
  }

  /** Rows and batches never vanish; paid and reversed rows, and recorded batches, never change again. */
  ghost predicate Settles(s: State, t: State) {
    && s.clock <= t.clock
    && (forall id :: id in s.ledger ==>
          && id in t.ledger
          && t.ledger[id].amount == s.ledger[id].amount
          && t.ledger[id].teacher == s.ledger[id].teacher
          && t.ledger[id].availableAt == s.ledger[id].availableAt
          && (!IsOpen(s.ledger[id]) ==> t.ledger[id] == s.ledger[id]))
    && (forall b :: b in s.batches ==> b in t.batches && t.batches[b] == s.batches[b])
  }

  /** A plan stays fresh while its own rows are untouched and time moves on. */
  lemma PlanKeeps(before: Ledger, after: Ledger, clock: int, later: int, plan: Plan)
    requires PlanFresh(before, clock, plan) && clock <= later
    requires forall id :: id in plan.ids ==> id in after && after[id] == before[id]
    ensures PlanFresh(after, later, plan)
  {
    SameColumns(before, after, plan.ids);
  }

  lemma CommitSafe(s: State, clearingDays: nat, tx: Id, batch: Id)
    requires Safe(s) && tx in s.runs && batch !in s.batches
    ensures Safe(Next(s, clearingDays, RunCommit(tx, batch)))
  {
    hide BatchesBalance, TotalOf, TeachersOf;
    var t := Next(s, clearingDays, RunCommit(tx, batch));
    var plan := s.runs[tx];
    CommitBalances(s.ledger, s.batches, plan.ids, batch, Batch(plan.admin, plan.total, plan.teacherCount, |plan.ids|));
    forall u | u in t.runs ensures PlanFresh(t.ledger, t.clock, t.runs[u]) {
      PlanKeeps(s.ledger, t.ledger, s.clock, t.clock, s.runs[u]);
    }
  }

  lemma RefundCommitSafe(s: State, clearingDays: nat, tx: Id)
    requires Safe(s) && tx in s.refunds && s.refunds[tx].holding
    ensures Safe(Next(s, clearingDays, RefundCommit(tx)))
  {
    hide TotalOf, TeachersOf, RowsOf;
    var t := Next(s, clearingDays, RefundCommit(tx));
    var row := s.refunds[tx].row;
    UnbatchedRowBalances(s.ledger, s.batches, row, s.ledger[row].(state := Reversed));
    forall u | u in t.runs ensures PlanFresh(t.ledger, t.clock, t.runs[u]) {
      PlanKeeps(s.ledger, t.ledger, s.clock, t.clock, s.runs[u]);
    }
  }

  lemma CaptureSafe(s: State, clearingDays: nat, row: Id, teacher: Id, amount: nat)
    requires Safe(s) && row !in s.ledger
    ensures Safe(Next(s, clearingDays, Capture(row, teacher, amount)))
  {
    hide BatchesBalance, TotalOf, TeachersOf;
    var t := Next(s, clearingDays, Capture(row, teacher, amount));
    UnbatchedRowBalances(s.ledger, s.batches, row, t.ledger[row]);
    forall u | u in t.runs ensures PlanFresh(t.ledger, t.clock, t.runs[u]) {
      PlanKeeps(s.ledger, t.ledger, s.clock, t.clock, s.runs[u]);
    }
  }

  lemma TickSafe(s: State, clearingDays: nat, n: nat)
    requires Safe(s)
    ensures Safe(Next(s, clearingDays, Tick(n)))
  {
  }

  /** SKIP LOCKED selects rows that are in nobody's hands. */
  lemma LockableIsFree(s: State)
    ensures forall u :: u in s.runs ==> s.runs[u].ids !! Lockable(s)
    ensures forall u :: u in s.refunds && s.refunds[u].holding ==> s.refunds[u].row !in Lockable(s)
  {
  }

  lemma LockSafe(s: State, clearingDays: nat, tx: Id, admin: Id)
    requires Safe(s) && tx !in s.runs && Lockable(s) != {}
    ensures Safe(Next(s, clearingDays, RunLock(tx, admin)))
  {
    var t := Next(s, clearingDays, RunLock(tx, admin));
    LockableIsFree(s);
    assert t.ledger == s.ledger && t.refunds == s.refunds && t.batches == s.batches;
    assert Exclusive(t);
    assert PlanFresh(s.ledger, s.clock, t.runs[tx]);
  }

  lemma GrantSafe(s: State, clearingDays: nat, tx: Id)
    requires Safe(s)
    ensures Safe(Next(s, clearingDays, RefundGrant(tx)))
  {
    hide BatchesBalance, PlanFresh;
    if tx in s.refunds && !s.refunds[tx].holding {
      var row := s.refunds[tx].row;
      if !HeldByRun(s, row) && !HeldByRefund(s, row) {
        assert forall u :: u in s.runs ==> row !in s.runs[u].ids;
        assert forall u :: u in s.refunds && s.refunds[u].holding ==> s.refunds[u].row != row;
      }
    }
  }

  /** Letting go of rows, or starting to wait for one, puts nothing in two hands. */
  lemma ReleaseSafe(s: State, clearingDays: nat, step: Step)
    requires Safe(s) && (step.RunAbort? || step.RefundAsk? || step.RefundAbort?)
    ensures Safe(Next(s, clearingDays, step))
  {
    hide BatchesBalance, PlanFresh;
  }

  lemma StepSafe(s: State, clearingDays: nat, step: Step)
    requires Safe(s)
    ensures Safe(Next(s, clearingDays, step))
  {
    hide Safe, MarkPaid, TotalOf, TeachersOf;
    match step
    case Capture(row, teacher, amount) =>
      if row !in s.ledger { CaptureSafe(s, clearingDays, row, teacher, amount); }
    case RunCommit(tx, batch) =>
      if tx in s.runs && batch !in s.batches { CommitSafe(s, clearingDays, tx, batch); }
    case RefundCommit(tx) =>
      if tx in s.refunds && s.refunds[tx].holding { RefundCommitSafe(s, clearingDays, tx); }
    case Tick(n) => TickSafe(s, clearingDays, n);
    case RunLock(tx, admin) =>
      if tx !in s.runs && Lockable(s) != {} { LockSafe(s, clearingDays, tx, admin); }
    case RefundGrant(tx) => GrantSafe(s, clearingDays, tx);
    case _ => ReleaseSafe(s, clearingDays, step);
  }

  lemma SettlesRefl(s: State, t: State)
    requires t.ledger == s.ledger && t.batches == s.batches && s.clock <= t.clock
    ensures Settles(s, t)
  {
  }

  lemma CommitSettles(s: State, clearingDays: nat, tx: Id, batch: Id)
    requires PlansFresh(s) && tx in s.runs && batch !in s.batches
    ensures Settles(s, Next(s, clearingDays, RunCommit(tx, batch)))
  {
    hide TotalOf, TeachersOf;
    assert PlanFresh(s.ledger, s.clock, s.runs[tx]);
  }

  lemma OneRowSettles(s: State, clearingDays: nat, step: Step)
    requires HoldersOpen(s) && (step.Capture? || step.RefundCommit?)
    ensures Settles(s, Next(s, clearingDays, step))
  {
  }

  lemma StepSettles(s: State, clearingDays: nat, step: Step)
    requires Safe(s)
    ensures Settles(s, Next(s, clearingDays, step))
  {
    hide PlansFresh, HoldersOpen, Exclusive, BatchesBalance, Settles, MarkPaid;
    match step
    case RunCommit(tx, batch) =>
      SettlesRefl(s, s);
      if tx in s.runs && batch !in s.batches { CommitSettles(s, clearingDays, tx, batch); }
    case Capture(_, _, _) => OneRowSettles(s, clearingDays, step);
    case RefundCommit(_) => OneRowSettles(s, clearingDays, step);
    case _ => SettlesRefl(s, Next(s, clearingDays, step));
  }

  /** Every interleaving from the empty ledger is safe. */
  lemma {:induction false} RunSafe(s: State, clearingDays: nat, steps: seq<Step>)
    requires Safe(s)
    ensures Safe(Run(s, clearingDays, steps))
    ensures Settles(s, Run(s, clearingDays, steps))
    decreases |steps|
  {
    if steps != [] {
      StepSafe(s, clearingDays, steps[0]);
      StepSettles(s, clearingDays, steps[0]);
      RunSafe(Next(s, clearingDays, steps[0]), clearingDays, steps[1..]);
    }
  }

  /**
    Money is conserved under any interleaving: batches say what their rows say, their
    totals add up to the paid total, nothing is in two hands, and from any later point
    on no paid or reversed row moves again.
  */
  lemma PayoutsConserveMoney(clearingDays: nat, before: seq<Step>, after: seq<Step>)
    ensures var s := Run(START, clearingDays, before);
            && Exclusive(s)
            && BatchesBalance(s.ledger, s.batches)
            && Sum(BatchTotals(s.batches)) == TotalOf(s.ledger, PaidRows(s.ledger))
            && Settles(s, Run(s, clearingDays, after))
  {
    RunSafe(START, clearingDays, before);
    var s := Run(START, clearingDays, before);
    RunSafe(s, clearingDays, after);
    BatchTotalsArePaid(s.ledger, s.batches);
  }

  // --- the clearing window -----------------------------------------------------------

  /** Whatever was paid was past its deadline. */
  ghost predicate PaidRowsCleared(s: State) {
    forall id :: id in s.ledger && s.ledger[id].state == Paid ==> s.ledger[id].availableAt <= s.clock
  }

  lemma StepKeepsCleared(s: State, clearingDays: nat, step: Step)
    requires Safe(s) && PaidRowsCleared(s)
    ensures PaidRowsCleared(Next(s, clearingDays, step))
  {
    hide Exclusive, HoldersOpen, BatchesBalance, Lockable, HeldByRun, HeldByRefund, TotalOf, TeachersOf;
    if step.RunCommit? && step.tx in s.runs {
      assert PlanFresh(s.ledger, s.clock, s.runs[step.tx]);
    }
  }

  lemma {:induction false} RunKeepsCleared(s: State, clearingDays: nat, steps: seq<Step>)
    requires Safe(s) && PaidRowsCleared(s)
    ensures PaidRowsCleared(Run(s, clearingDays, steps))
    decreases |steps|
  {
    hide Safe, PaidRowsCleared, Next;
    if steps != [] {
      StepSafe(s, clearingDays, steps[0]);
      StepKeepsCleared(s, clearingDays, steps[0]);
      RunKeepsCleared(Next(s, clearingDays, steps[0]), clearingDays, steps[1..]);
    }
  }

  /** However runs and refunds interleave, a captured lesson is not paid out before its clearing days are over. */
  lemma NotPaidBeforeClearing(clearingDays: nat, before: seq<Step>, row: Id, teacher: Id, amount: nat, after: seq<Step>)
    requires row !in Run(START, clearingDays, before).ledger
    ensures var s := Run(START, clearingDays, before);
            var t := Run(Next(s, clearingDays, Capture(row, teacher, amount)), clearingDays, after);
            && row in t.ledger && t.ledger[row].amount == amount && t.ledger[row].teacher == teacher
            && (t.ledger[row].state == Paid ==> s.clock + clearingDays * UtcClock.DAY <= t.clock)
  {
    hide Safe, PaidRowsCleared, Run;
    StartIsSafe();
    RunSafe(START, clearingDays, before);
    RunKeepsCleared(START, clearingDays, before);
    var s := Run(START, clearingDays, before);
    StepSafe(s, clearingDays, Capture(row, teacher, amount));
    StepKeepsCleared(s, clearingDays, Capture(row, teacher, amount));
    var captured := Next(s, clearingDays, Capture(row, teacher, amount));
    RunSafe(captured, clearingDays, after);
    RunKeepsCleared(captured, clearingDays, after);
    PaidAt(Run(captured, clearingDays, after), row);
  }

  lemma StartIsSafe()
    ensures Safe(START) && PaidRowsCleared(START)
  {
  }

  lemma PaidAt(s: State, row: Id)
    requires PaidRowsCleared(s)
    ensures row in s.ledger && s.ledger[row].state == Paid ==> s.ledger[row].availableAt <= s.clock
  {
  }

  // --- the steps are the event transactions --------------------------------------------

  /** The protocol's capture does to the ledger what applying a captured event does. */
  lemma CaptureIsEvent(s: State, clearingDays: nat, db: Db, e: Event)
    requires db.ledger == s.ledger && e.kind == EvCaptured && e.payment in db.bookings
    requires Webhooks.ApplyEvent(db, clearingDays, s.clock, e).1 == Webhooks.Applied
    ensures Next(s, clearingDays, Capture(e.payment, db.bookings[e.payment].teacher, db.payments[e.payment].amount)).ledger
         == Webhooks.ApplyEvent(db, clearingDays, s.clock, e).0.ledger
  {
  }

  /** A refund that gets its row and commits does what applying a refunded event does, and holds nothing afterwards. */
  lemma RefundIsEvent(s: State, clearingDays: nat, db: Db, e: Event, tx: Id)
    requires db.ledger == s.ledger && e.kind == EvRefunded && tx !in s.refunds
    requires Webhooks.ApplyEvent(db, clearingDays, s.clock, e).1 == Webhooks.Applied
    requires !HeldByRun(s, e.payment) && !HeldByRefund(s, e.payment)
    ensures var asked := Next(s, clearingDays, RefundAsk(tx, e.payment));
            var t := Next(Next(asked, clearingDays, RefundGrant(tx)), clearingDays, RefundCommit(tx));
            && t.ledger == Webhooks.ApplyEvent(db, clearingDays, s.clock, e).0.ledger
            && t.refunds == s.refunds && t.runs == s.runs && t.batches == s.batches
  {
    hide Webhooks.ApplyEvent;
    Webhooks.EventOutcome(db, clearingDays, s.clock, e);
    var asked := Next(s, clearingDays, RefundAsk(tx, e.payment));
    WaitingHoldsNothing(s, tx, e.payment);
    if e.payment in s.ledger && IsOpen(s.ledger[e.payment]) {
      assert s.refunds[tx := RefundTx(e.payment, true)] - {tx} == s.refunds;
    } else {
      assert asked.refunds - {tx} == s.refunds;
    }
  }

  lemma WaitingHoldsNothing(s: State, tx: Id, row: Id)
    requires tx !in s.refunds && !HeldByRun(s, row) && !HeldByRefund(s, row)
    ensures var asked := s.(refunds := s.refunds[tx := RefundTx(row, false)]);
            !HeldByRun(asked, row) && !HeldByRefund(asked, row)
  {
  }

  // --- against a whole run ---------------------------------------------------------------

  ghost function HeldRows(s: State): set<Id> {
    set id | id in s.ledger && (HeldByRun(s, id) || HeldByRefund(s, id))
  }

  /**
    Whatever else is in flight, locking and then committing is the run that skips the rows
    others hold, and leaves those others as they were.
  */
  lemma LockThenCommitIsRun(s: State, clearingDays: nat, db: Db, tx: Id, admin: Id, batch: Id)
    requires tx !in s.runs && batch !in s.batches && db.ledger == s.ledger && db.batches == s.batches
    ensures var t := Run(s, clearingDays, [RunLock(tx, admin), RunCommit(tx, batch)]);
            var after := RunSkipping(db, HeldRows(s), admin, batch, s.clock);
            && t.ledger == after.ledger && t.batches == after.batches
            && t.runs == s.runs && t.refunds == s.refunds && t.clock == s.clock
  {
    hide HeldRows, Lockable, TotalOf, TeachersOf, MarkPaid, Payable, Run;
    TwoSteps(s, clearingDays, RunLock(tx, admin), RunCommit(tx, batch));
    LockableIsUnheld(s);
    var locked := Next(s, clearingDays, RunLock(tx, admin));
    if Lockable(s) != {} {
      assert locked.runs - {tx} == s.runs;
    }
  }

  lemma LockableIsUnheld(s: State)
    ensures Lockable(s) == Payable(s.ledger, s.clock) - HeldRows(s)
  {
    hide HeldByRun, HeldByRefund;
  }

  lemma TwoSteps(s: State, clearingDays: nat, first: Step, second: Step)
    ensures Run(s, clearingDays, [first, second]) == Next(Next(s, clearingDays, first), clearingDays, second)
  {
    hide Next;
    assert [first, second][1..] == [second] && [second][1..] == [];
    assert Run(Next(s, clearingDays, first), clearingDays, [second])
        == Run(Next(Next(s, clearingDays, first), clearingDays, second), clearingDays, []);
  }

  /** With nothing in flight, lock then commit is the whole-run function. */
  lemma LockThenCommitIsSoloRun(s: State, clearingDays: nat, db: Db, tx: Id, admin: Id, batch: Id)
    requires s.runs == map[] && s.refunds == map[]
    requires batch !in s.batches && db.ledger == s.ledger && db.batches == s.batches
    ensures var t := Run(s, clearingDays, [RunLock(tx, admin), RunCommit(tx, batch)]);
            var solo := SoloRun(db, admin, batch, s.clock);
            t.ledger == solo.ledger && t.batches == solo.batches && t.runs == map[]
  {
    hide SoloRun, RunSkipping, Run;
    LockThenCommitIsRun(s, clearingDays, db, tx, admin, batch);
    assert HeldRows(s) == {};
    NothingHeld(db, admin, batch, s.clock);
  }
}
