/**
  Three readings of the earnings ledger: a teacher's summary
  (backend/internal/payments/payments.go), the operator totals and the owed list
  (backend/internal/db/sqlc/payouts.sql.go).
*/
module LedgerViews {
  import opened Tables
  import opened Sums
  import opened Payouts

  /** `effectiveState`: an open row reads as available once its deadline has passed. */
  function EffectiveState(stored: LedgerState, availableAt: int, now: int): (state: LedgerState)
    ensures stored == Paid || stored == Reversed ==> state == stored
    ensures state == Available ==> availableAt <= now
    ensures state == Held ==> availableAt > now
  {
    match stored
    case Paid => Paid
    case Reversed => Reversed
    case _ => if availableAt > now then Held else Available
  }

  function StateAt(r: LedgerRow, now: int): LedgerState {
    EffectiveState(r.state, r.availableAt, now)
  }

  /** The rows that read as `state` at `now`; the FILTER clauses of the totals query. */
  function Reading(ledger: Ledger, state: LedgerState, now: int): set<Id> {
    set id | id in ledger && StateAt(ledger[id], now) == state
  }

  ghost function Total(ledger: Ledger, state: LedgerState, now: int): int {
    TotalOf(ledger, Reading(ledger, state, now))
  }

  lemma ReadingsAreTheQueries(ledger: Ledger, now: int)
    ensures Reading(ledger, Available, now) == Payable(ledger, now)
    ensures Reading(ledger, Paid, now) == PaidRows(ledger)
  {
  }

  // --- the teacher's summary -------------------------------------------------------

  datatype EarningLine = EarningLine(booking: Id, amount: int, state: LedgerState, availableAt: int)

  datatype Earnings = Earnings(earned: int, held: int, available: int, paid: int)

  function Resolve(l: EarningLine, now: int): EarningLine {
    l.(state := EffectiveState(l.state, l.availableAt, now))
  }

  /** The amounts of the lines reading as `state`. */
  function LineTotal(lines: seq<EarningLine>, state: LedgerState, now: int): int {
    if lines == [] then 0
    else
      var last := lines[|lines| - 1];
      LineTotal(lines[..|lines| - 1], state, now)
      + (if Resolve(last, now).state == state then last.amount else 0)
  }

  /** `summarize`: one pass that rewrites each line's state in place and adds it to its total. */
  method Summarize(lines: array<EarningLine>, now: int) returns (e: Earnings)
    modifies lines
    ensures forall i :: 0 <= i < lines.Length ==> lines[i] == Resolve(old(lines[i]), now)
    ensures e.held == LineTotal(old(lines[..]), Held, now)
    ensures e.available == LineTotal(old(lines[..]), Available, now)
    ensures e.paid == LineTotal(old(lines[..]), Paid, now)
    ensures e.earned == e.held + e.available + e.paid
  {
    e := Earnings(0, 0, 0, 0);
    ghost var was := lines[..];
    for i := 0 to lines.Length
      invariant forall j :: 0 <= j < i ==> lines[j] == Resolve(was[j], now)
      invariant forall j :: i <= j < lines.Length ==> lines[j] == was[j]
      invariant e.held == LineTotal(was[..i], Held, now)
      invariant e.available == LineTotal(was[..i], Available, now)
      invariant e.paid == LineTotal(was[..i], Paid, now)
      invariant e.earned == e.held + e.available + e.paid
    {
      var l := lines[i];
      var state := EffectiveState(l.state, l.availableAt, now);
      lines[i] := l.(state := state);
      assert was[..i + 1][..i] == was[..i];
      match state {
        case Held => e := e.(held := e.held + l.amount, earned := e.earned + l.amount);
        case Available => e := e.(available := e.available + l.amount, earned := e.earned + l.amount);
        case Paid => e := e.(paid := e.paid + l.amount, earned := e.earned + l.amount);
        case Reversed =>
      }
    }
    assert was[..lines.Length] == was;
  }

  /** Distinct rows of one teacher, as summary lines. */
  ghost predicate Rows(ledger: Ledger, teacher: Id, lines: seq<EarningLine>) {
    && (forall i, j :: 0 <= i < j < |lines| ==> lines[i].booking != lines[j].booking)
    && (forall i :: 0 <= i < |lines| ==> lines[i].booking in ledger && IsLine(ledger[lines[i].booking], teacher, lines[i]))
  }

  predicate IsLine(r: LedgerRow, teacher: Id, l: EarningLine) {
    r.teacher == teacher && l == EarningLine(l.booking, r.amount, r.state, r.availableAt)
  }

  /** A teacher's lines: each of their ledger rows once, in any order. */
  ghost predicate LinesOf(ledger: Ledger, teacher: Id, lines: seq<EarningLine>) {
    Rows(ledger, teacher, lines)
    && forall id :: id in ledger && ledger[id].teacher == teacher ==> HasLine(lines, id)
  }

  ghost predicate HasLine(lines: seq<EarningLine>, id: Id) {
    exists i :: 0 <= i < |lines| && lines[i].booking == id
  }

  function Mine(ledger: Ledger, teacher: Id, state: LedgerState, now: int): set<Id> {
    set id | id in ledger && ledger[id].teacher == teacher && StateAt(ledger[id], now) == state
  }

  /** The summary's totals are the ledger's, restricted to the teacher. */
  lemma SummaryMatchesLedger(ledger: Ledger, teacher: Id, lines: seq<EarningLine>, state: LedgerState, now: int)
    requires LinesOf(ledger, teacher, lines)
    ensures LineTotal(lines, state, now) == TotalOf(ledger, Mine(ledger, teacher, state, now))
  {
    LineTotalIsSum(ledger, teacher, lines, state, now);
    PickedIsMine(ledger, teacher, lines, state, now);
  }

  lemma PickedIsMine(ledger: Ledger, teacher: Id, lines: seq<EarningLine>, state: LedgerState, now: int)
    requires LinesOf(ledger, teacher, lines)
    ensures Picked(ledger, lines, state, now) == Mine(ledger, teacher, state, now)
  {
  }

  ghost function Picked(ledger: Ledger, lines: seq<EarningLine>, state: LedgerState, now: int): set<Id> {
    set i | 0 <= i < |lines| && lines[i].booking in ledger && StateAt(ledger[lines[i].booking], now) == state :: lines[i].booking
  }

  lemma {:induction false} LineTotalIsSum(ledger: Ledger, teacher: Id, lines: seq<EarningLine>, state: LedgerState, now: int)
    requires Rows(ledger, teacher, lines)
    ensures LineTotal(lines, state, now) == TotalOf(ledger, Picked(ledger, lines, state, now))
  {
    hide TotalOf, Picked;
    if lines == [] {
      NothingPicked(ledger, state, now);
    } else {
      var n := |lines| - 1;
      var init, last := lines[..n], lines[n];
      LineTotalIsSum(ledger, teacher, init, state, now);
      var before := Picked(ledger, init, state, now);
      PickedGrows(ledger, lines, state, now);
      if StateAt(ledger[last.booking], now) == state {
        assert IsLine(ledger[last.booking], teacher, last);
        AddRow(ledger, before, last.booking);
      } else {
        assert before + {} == before;
      }
    }
  }

  lemma NothingPicked(ledger: Ledger, state: LedgerState, now: int)
    ensures TotalOf(ledger, Picked(ledger, [], state, now)) == 0
  {
  }

  lemma AddRow(ledger: Ledger, ids: set<Id>, id: Id)
    requires id in ledger && id !in ids
    ensures TotalOf(ledger, ids + {id}) == TotalOf(ledger, ids) + ledger[id].amount
  {
    assert Amounts(ledger, ids + {id}) == Amounts(ledger, ids)[id := ledger[id].amount];
    SumPut(Amounts(ledger, ids), id, ledger[id].amount);
  }

  lemma PickedGrows(ledger: Ledger, lines: seq<EarningLine>, state: LedgerState, now: int)
    requires lines != [] && lines[|lines| - 1].booking in ledger
    requires forall i, j :: 0 <= i < j < |lines| ==> lines[i].booking != lines[j].booking
    ensures var n := |lines| - 1;
            var last := lines[n].booking;
            && last !in Picked(ledger, lines[..n], state, now)
            && Picked(ledger, lines, state, now)
               == Picked(ledger, lines[..n], state, now) + (if StateAt(ledger[last], now) == state then {last} else {})
  {
  }

  // --- the views agree -----------------------------------------------------------

  ghost function PerTeacher(ledger: Ledger, teachers: set<Id>, state: LedgerState, now: int): map<int, int> {
    map t | t in teachers :: TotalOf(ledger, Mine(ledger, t, state, now))
  }

  function TeacherOf(ledger: Ledger): map<int, int> {
    map id | id in ledger :: ledger[id].teacher
  }

  /** The teachers' totals for a state add up to the operator's; teachers without such rows add nothing. */
  lemma TeachersAddUp(ledger: Ledger, teachers: set<Id>, state: LedgerState, now: int)
    requires forall id :: id in ledger && StateAt(ledger[id], now) == state ==> ledger[id].teacher in teachers
    ensures Sum(PerTeacher(ledger, teachers, state, now)) == Total(ledger, state, now)
  {
    var m := Amounts(ledger, Reading(ledger, state, now));
    var parts := PerTeacher(ledger, teachers, state, now);
    forall t | t in parts ensures parts[t] == Sum(InGroup(m, TeacherOf(ledger), t)) {
      MineIsGroup(ledger, t, state, now);
    }
    SumByGroup(m, TeacherOf(ledger), parts);
  }

  lemma MineIsGroup(ledger: Ledger, t: Id, state: LedgerState, now: int)
    ensures Amounts(ledger, Reading(ledger, state, now)).Keys <= TeacherOf(ledger).Keys
    ensures InGroup(Amounts(ledger, Reading(ledger, state, now)), TeacherOf(ledger), t)
         == Amounts(ledger, Mine(ledger, t, state, now))
  {
  }

  /** The teachers the owed query lists: those with something payable now. */
  function OwedTeachers(ledger: Ledger, now: int): set<Id> {
    TeachersOf(ledger, Payable(ledger, now))
  }

  /** The owed rows add up to the operator's available total. */
  lemma OwedAddsUp(ledger: Ledger, now: int)
    ensures Sum(PerTeacher(ledger, OwedTeachers(ledger, now), Available, now)) == Total(ledger, Available, now)
  {
    ReadingsAreTheQueries(ledger, now);
    TeachersAddUp(ledger, OwedTeachers(ledger, now), Available, now);
  }

  /** A solo run pays exactly the available total, leaves nothing available, and moves nothing else. */
  lemma SoloRunClearsAvailable(db: Db, admin: Id, batch: Id, now: int)
    requires BatchesBalance(db.ledger, db.batches) && batch !in db.batches
    ensures var after := SoloRun(db, admin, batch, now);
            && Total(after.ledger, Available, now) == 0
            && Total(after.ledger, Paid, now) == Total(db.ledger, Paid, now) + Total(db.ledger, Available, now)
            && Total(after.ledger, Held, now) == Total(db.ledger, Held, now)
            && Total(after.ledger, Reversed, now) == Total(db.ledger, Reversed, now)
            && BatchesBalance(after.ledger, after.batches)
            && (Payable(db.ledger, now) != {} ==>
                  batch in after.batches && after.batches[batch].total == Total(db.ledger, Available, now))
  {
    hide TotalOf, BatchesBalance, Reading, PaidRows, MarkPaid;
    var ids := Payable(db.ledger, now);
    var after := SoloRun(db, admin, batch, now);
    ReadingsAreTheQueries(db.ledger, now);
    NoRowsNoMoney(db.ledger);
    NoRowsNoMoney(after.ledger);
    if ids != {} {
      PayableAreOpen(db.ledger, now);
      CommitBalances(db.ledger, db.batches, ids, batch, BatchFor(db.ledger, ids, admin));
      MarkedReadings(db.ledger, ids, batch, now);
      PaidNotPayable(db.ledger, now);
      MarkKeepsTotals(db.ledger, ids, batch, PaidRows(db.ledger) + ids);
      MarkKeepsTotals(db.ledger, ids, batch, Reading(db.ledger, Held, now));
      MarkKeepsTotals(db.ledger, ids, batch, Reading(db.ledger, Reversed, now));
      TotalDisjoint(db.ledger, PaidRows(db.ledger), ids);
    }
  }

  lemma NoRowsNoMoney(ledger: Ledger)
    ensures TotalOf(ledger, {}) == 0
  {
  }

  lemma PayableAreOpen(ledger: Ledger, now: int)
    ensures forall id :: id in Payable(ledger, now) ==> id in ledger && IsOpen(ledger[id])
  {
  }

  lemma PaidNotPayable(ledger: Ledger, now: int)
    ensures PaidRows(ledger) !! Payable(ledger, now)
  {
  }

  lemma MarkKeepsTotals(ledger: Ledger, ids: set<Id>, batch: Id, some: set<Id>)
    ensures TotalOf(MarkPaid(ledger, ids, batch), some) == TotalOf(ledger, some)
  {
    SameColumns(ledger, MarkPaid(ledger, ids, batch), some);
  }

  lemma MarkedReadings(ledger: Ledger, ids: set<Id>, batch: Id, now: int)
    requires ids == Payable(ledger, now)
    ensures var after := MarkPaid(ledger, ids, batch);
            && Reading(after, Available, now) == {}
            && Reading(after, Paid, now) == PaidRows(ledger) + ids
            && Reading(after, Held, now) == Reading(ledger, Held, now)
            && Reading(after, Reversed, now) == Reading(ledger, Reversed, now)
  {
  }

  /** Advancing the clock only moves money from held to available. */
  lemma ClockMovesHeldToAvailable(ledger: Ledger, now: int, later: int)
    requires now <= later
    ensures Reading(ledger, Available, now) <= Reading(ledger, Available, later)
    ensures Total(ledger, Held, later) + Total(ledger, Available, later)
         == Total(ledger, Held, now) + Total(ledger, Available, now)
    ensures Total(ledger, Paid, later) == Total(ledger, Paid, now)
    ensures Total(ledger, Reversed, later) == Total(ledger, Reversed, now)
  {
    hide TotalOf, Reading;
    ReadingsOverTime(ledger, now, later);
    TotalDisjoint(ledger, Reading(ledger, Held, now), Reading(ledger, Available, now));
    TotalDisjoint(ledger, Reading(ledger, Held, later), Reading(ledger, Available, later));
  }

  lemma ReadingsOverTime(ledger: Ledger, now: int, later: int)
    requires now <= later
    ensures Reading(ledger, Available, now) <= Reading(ledger, Available, later)
    ensures Reading(ledger, Held, now) !! Reading(ledger, Available, now)
    ensures Reading(ledger, Held, later) !! Reading(ledger, Available, later)
    ensures Reading(ledger, Held, later) + Reading(ledger, Available, later)
         == Reading(ledger, Held, now) + Reading(ledger, Available, now)
    ensures Reading(ledger, Paid, later) == Reading(ledger, Paid, now)
    ensures Reading(ledger, Reversed, later) == Reading(ledger, Reversed, now)
  {
  }

  /** The four readings split the whole ledger. */
  lemma ReadingsPartition(ledger: Ledger, now: int)
    ensures TotalOf(ledger, ledger.Keys)
         == Total(ledger, Held, now) + Total(ledger, Available, now) + Total(ledger, Paid, now) + Total(ledger, Reversed, now)
  {
    hide TotalOf, Reading;
    var h, a := Reading(ledger, Held, now), Reading(ledger, Available, now);
    var p, r := Reading(ledger, Paid, now), Reading(ledger, Reversed, now);
    ReadingsSplitRows(ledger, now);
    TotalDisjoint(ledger, h, a);
    TotalDisjoint(ledger, h + a, p);
    TotalDisjoint(ledger, h + a + p, r);
  }

  lemma ReadingsSplitRows(ledger: Ledger, now: int)
    ensures var h, a := Reading(ledger, Held, now), Reading(ledger, Available, now);
            var p, r := Reading(ledger, Paid, now), Reading(ledger, Reversed, now);
            h !! a && h + a !! p && h + a + p !! r && h + a + p + r == ledger.Keys
  {
  }
}
