/**
  The payout repository (backend/internal/payouts/repository_postgres.go): one run as a
  transaction on the tables, and the per-teacher lines read back for its batch.
*/
module PayoutRun {
  import opened Options
  import opened Tables
  import opened Sums
  import opened Payouts
  import opened LedgerViews
  import opened Repository
  import Sorting

  datatype RunError = NothingToPay

  /** One line per teacher a batch pays: the amount and the number of lessons. */
  datatype BatchLine = BatchLine(amount: int, lessons: nat)

  function TeacherRows(ledger: Ledger, batch: Id, teacher: Id): set<Id> {
    set id | id in RowsOf(ledger, batch) && ledger[id].teacher == teacher
  }

  /** AdminListPayoutBatchLines, keyed by teacher. */
  ghost function BatchLines(ledger: Ledger, batch: Id): map<Id, BatchLine> {
    map t | t in TeachersOf(ledger, RowsOf(ledger, batch)) ::
      BatchLine(TotalOf(ledger, TeacherRows(ledger, batch, t)), |TeacherRows(ledger, batch, t)|)
  }

  ghost function LineAmounts(lines: map<Id, BatchLine>): map<int, int> {
    map t | t in lines :: lines[t].amount
  }

  ghost function LineLessons(lines: map<Id, BatchLine>): map<int, int> {
    map t | t in lines :: lines[t].lessons
  }

  function OneEach(ids: set<Id>): map<int, int> {
    map id | id in ids :: 1
  }

  lemma {:induction false} CountIsSum(ids: set<Id>)
    ensures Sum(OneEach(ids)) == |ids|
    decreases |ids|
  {
    if ids == {} {
      assert OneEach(ids) == map[];
    } else {
      EmptyOrInhabited(ids);
      var id :| id in ids;
      CountIsSum(ids - {id});
      SumTakeOut(OneEach(ids), id);
      assert OneEach(ids) - {id} == OneEach(ids - {id});
    }
  }

  /** The lines of a recorded batch add up to what its own row says: amount, lessons and teachers. */
  lemma BatchLinesAddUp(ledger: Ledger, batches: map<Id, Batch>, b: Id)
    requires BatchesBalance(ledger, batches) && b in batches
    ensures var lines := BatchLines(ledger, b);
            && Sum(LineAmounts(lines)) == batches[b].total
            && Sum(LineLessons(lines)) == batches[b].lineCount
            && |lines| == batches[b].teacherCount
  {
    hide TotalOf, TeachersOf, RowsOf, LineAmounts, LineLessons;
    LinesAmount(ledger, b);
    LinesCount(ledger, b);
    var lines := BatchLines(ledger, b);
    assert |lines.Keys| == |lines|;
    assert lines.Keys == TeachersOf(ledger, RowsOf(ledger, b));
  }

  lemma LinesAmount(ledger: Ledger, b: Id)
    ensures Sum(LineAmounts(BatchLines(ledger, b))) == TotalOf(ledger, RowsOf(ledger, b))
  {
    var m := Amounts(ledger, RowsOf(ledger, b));
    var parts := LineAmounts(BatchLines(ledger, b));
    forall t | t in parts ensures parts[t] == Sum(InGroup(m, TeacherOf(ledger), t)) {
      LineIsGroup(ledger, b, t);
    }
    SumByGroup(m, TeacherOf(ledger), parts);
  }

  lemma LineIsGroup(ledger: Ledger, b: Id, t: Id)
    ensures Amounts(ledger, RowsOf(ledger, b)).Keys <= TeacherOf(ledger).Keys
    ensures InGroup(Amounts(ledger, RowsOf(ledger, b)), TeacherOf(ledger), t) == Amounts(ledger, TeacherRows(ledger, b, t))
  {
  }

  lemma LinesCount(ledger: Ledger, b: Id)
    ensures Sum(LineLessons(BatchLines(ledger, b))) == |RowsOf(ledger, b)|
  {
    var m := OneEach(RowsOf(ledger, b));
    var parts := LineLessons(BatchLines(ledger, b));
    forall t | t in parts ensures parts[t] == Sum(InGroup(m, TeacherOf(ledger), t)) {
      CountIsSum(TeacherRows(ledger, b, t));
      LessonsAreGroup(ledger, b, t);
    }
    SumByGroup(m, TeacherOf(ledger), parts);
    CountIsSum(RowsOf(ledger, b));
  }

  predicate Before(a: Id, b: Id) {
    a < b
  }

  lemma LessonsAreGroup(ledger: Ledger, b: Id, t: Id)
    ensures OneEach(RowsOf(ledger, b)).Keys <= TeacherOf(ledger).Keys
    ensures InGroup(OneEach(RowsOf(ledger, b)), TeacherOf(ledger), t) == OneEach(TeacherRows(ledger, b, t))
  {
  }

  /** The payable rows nobody else holds, each once, by ascending id. */
  ghost predicate Selects(ledger: Ledger, now: int, held: set<Id>, rows: seq<Id>) {
    && Sorting.StrictlyOrdered(Before, rows)
    && (forall id :: id in rows <==> id in Payable(ledger, now) - held)
  }

  function Members(rows: seq<Id>): set<Id> {
    set id | id in rows
  }

  lemma MembersAppend(rows: seq<Id>, i: nat)
    requires i < |rows|
    requires forall p, q :: 0 <= p < q < |rows| ==> rows[p] != rows[q]
    ensures Members(rows[..i + 1]) == Members(rows[..i]) + {rows[i]}
    ensures rows[i] !in Members(rows[..i])
  {
  }

  /** The totals one more row adds. */
  lemma RowJoins(ledger: Ledger, ids: set<Id>, id: Id)
    requires id in ledger && id !in ids
    ensures TotalOf(ledger, ids + {id}) == TotalOf(ledger, ids) + ledger[id].amount
    ensures TeachersOf(ledger, ids + {id}) == TeachersOf(ledger, ids) + {ledger[id].teacher}
    ensures |ids + {id}| == |ids| + 1
  {
    AddRow(ledger, ids, id);
    forall t
      ensures t in TeachersOf(ledger, ids + {id}) <==> t in TeachersOf(ledger, ids) + {ledger[id].teacher}
    {
      if t == ledger[id].teacher { assert id in ids + {id}; }
    }
  }

  /** Sorting distinct ids makes them strictly ascending and loses none. */
  lemma SortedSelects(found: seq<Id>, rows: seq<Id>)
    requires forall i, j :: 0 <= i < j < |found| ==> found[i] != found[j]
    requires Sorting.Ordered(Before, rows) && multiset(rows) == multiset(found)
    ensures Sorting.StrictlyOrdered(Before, rows)
    ensures forall id :: id in rows <==> id in found
  {
    Sorting.PermutationFacts(rows, found);
    Sorting.OrderedDistinct(Before, found, rows);
  }

  /** The accumulation loop of `Run`: ids, distinct teachers and the running total. */
  method AddUp(ledger: Ledger, payable: seq<Id>) returns (ids: set<Id>, teachers: set<Id>, total: int)
    requires forall i, j :: 0 <= i < j < |payable| ==> payable[i] != payable[j]
    requires forall id :: id in payable ==> id in ledger
    ensures ids == Members(payable) && |ids| == |payable|
    ensures teachers == TeachersOf(ledger, ids)
    ensures total == TotalOf(ledger, ids)
  {
    ids, teachers, total := {}, {}, 0;
    NoRowsNoMoney(ledger);
    assert payable[..0] == [];
    for i := 0 to |payable|
      invariant ids == Members(payable[..i]) && |ids| == i
      invariant teachers == TeachersOf(ledger, ids)
      invariant total == TotalOf(ledger, ids)
    {
      var id := payable[i];
      assert id in payable;
      MembersAppend(payable, i);
      RowJoins(ledger, ids, id);
      ids := ids + {id};
      teachers := teachers + {ledger[id].teacher};
      total := total + ledger[id].amount;
    }
    assert payable[..|payable|] == payable;
  }

  class PayoutRepository {
    const store: Store

    constructor (store: Store)
      ensures this.store == store
    {
      this.store := store;
    }

    /** LockPayablePayoutLedger: ORDER BY id, skipping the rows other transactions hold. */
    method LockPayable(now: int, held: set<Id>) returns (rows: seq<Id>)
      ensures Selects(store.ledger, now, held, rows)
    {
      var found: seq<Id> := [];
      var left: set<int> := store.ledger.Keys;
      while left != {}
        invariant left <= store.ledger.Keys
        invariant forall i, j :: 0 <= i < j < |found| ==> found[i] != found[j]
        invariant forall id :: id in found <==> id in Payable(store.ledger, now) && id !in held && id !in left
        decreases |left|
      {
        EmptyOrInhabited(left);
        var id :| id in left;
        left := left - {id};
        if IsOpen(store.ledger[id]) && store.ledger[id].availableAt <= now && id !in held {
          found := found + [id];
        }
      }
      rows := Sorting.Sort(Before, found);
      SortedSelects(found, rows);
    }

    /**
      `Run`: select what is free, add it up, insert the batch, mark the rows paid.  Nothing
      free means no batch at all.
    */
    method Run(now: int, admin: Id, batch: Id, held: set<Id>) returns (r: Result<Batch, RunError>)
      requires batch !in store.batches
      modifies store
      ensures store.Tables() == RunSkipping(old(store.Tables()), held, admin, batch, now)
      ensures var ids := Payable(old(store.ledger), now) - held;
              r == if ids == {} then Err(NothingToPay) else Ok(BatchFor(old(store.ledger), ids, admin))
    {
      hide TotalOf, MarkPaid, TeachersOf;
      var payable := LockPayable(now, held);
      if |payable| == 0 {
        assert Payable(store.ledger, now) - held == {};
        return Err(NothingToPay);
      }
      assert payable[0] in payable;
      var ids, teachers, total := AddUp(store.ledger, payable);
      assert ids == Payable(store.ledger, now) - held;
      var record := Batch(admin, total, |teachers|, |payable|);
      store.InsertPayoutBatch(batch, record);
      store.MarkLedgerRowsPaid(ids, batch);
      return Ok(record);
    }
  }
}
