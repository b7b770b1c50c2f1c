/**
  A teacher's displayed rating (backend/internal/db/sqlc/reviews.sql.go,
  backend/internal/reviews/repository_postgres.go): always the immutable baseline folded
  with the currently visible, booking-tied reviews.  The baseline is a real from 0 to 5; the
  displayed value has one decimal and is counted in tenths.
*/
module Ratings {
  import opened Options
  import opened Tables
  import opened Sums

  datatype Review = Review(teacher: Id, student: Id, booking: Option<Id>, rating: int, comment: string, hidden: bool)

  /** The rating columns of a teacher row: the baseline pair and the derived pair. */
  datatype Standing = Standing(base: real, baseCount: nat, tenths: int, count: int)

  datatype Board = Board(reviews: map<Id, Review>, standings: map<Id, Standing>)

  predicate Counts(r: Review, teacher: Id) {
    r.teacher == teacher && r.booking.Some? && !r.hidden
  }

  function Counted(reviews: map<Id, Review>, teacher: Id): set<Id> {
    set id | id in reviews && Counts(reviews[id], teacher)
  }

  function Stars(reviews: map<Id, Review>, ids: set<Id>): map<int, int> {
    map id | id in ids && id in reviews :: reviews[id].rating
  }

  ghost function StarSum(reviews: map<Id, Review>, ids: set<Id>): int {
    Sum(Stars(reviews, ids))
  }

  /** SQL `round(x, 1)` on non-negative values, in tenths: ties up. */
  function RoundTenth(x: real): (r: int)
    ensures 10.0 * x - 0.5 < r as real <= 10.0 * x + 0.5
  {
    (10.0 * x + 0.5).Floor
  }

  function Clamp(x: int): int {
    if x < 0 then 0 else if x > 50 then 50 else x
  }

  function Total(base: real, baseCount: nat, sum: int): real {
    base * baseCount as real + sum as real
  }

  /** The exact mean of a baseline and `n` reviews adding up to `sum` stars. */
  function Mean(base: real, baseCount: nat, sum: int, n: nat): real
    requires baseCount + n > 0
  {
    Total(base, baseCount, sum) / (baseCount + n) as real
  }

  /** The aggregate expression over a baseline and `n` reviews adding up to `sum` stars. */
  function Fold(s: Standing, sum: int, n: nat): Standing {
    s.(count := s.baseCount + n,
       tenths := if s.baseCount + n == 0 then 0 else Clamp(RoundTenth(Mean(s.base, s.baseCount, sum, n))))
  }

  ghost function Defined(reviews: map<Id, Review>, teacher: Id, s: Standing): Standing {
    var ids := Counted(reviews, teacher);
    Fold(s, StarSum(reviews, ids), |ids|)
  }

  /** RecomputeTeacherRating. */
  ghost function Recompute(b: Board, teacher: Id): Board {
    if teacher !in b.standings then b
    else b.(standings := b.standings[teacher := Defined(b.reviews, teacher, b.standings[teacher])])
  }

  // --- the writes, each followed by its recompute --------------------------------------

  predicate Reviewed(reviews: map<Id, Review>, booking: Id) {
    exists id :: id in reviews && reviews[id].booking == Some(booking)
  }

  ghost function Insert(b: Board, id: Id, r: Review): (Board, bool)
    requires r.booking.Some?
  {
    if Reviewed(b.reviews, r.booking.value) then (b, false)
    else (Recompute(b.(reviews := b.reviews[id := r]), r.teacher), true)
  }

  ghost function SetHidden(b: Board, id: Id, hidden: bool): (Board, bool) {
    if id !in b.reviews then (b, false)
    else
      var r := b.reviews[id];
      (Recompute(b.(reviews := b.reviews[id := r.(hidden := hidden)]), r.teacher), true)
  }

  ghost function Remove(b: Board, id: Id): (Board, bool) {
    if id !in b.reviews then (b, false)
    else (Recompute(b.(reviews := b.reviews - {id}), b.reviews[id].teacher), true)
  }

  /** The review tables as the repository changes them. */
  class ReviewRepository {
    var reviews: map<Id, Review>
    var standings: map<Id, Standing>

    function Contents(): Board
      reads this
    {
      Board(reviews, standings)
    }

    constructor (standings: map<Id, Standing>)
      ensures Contents() == Board(map[], standings)
    {
      this.standings := standings;
      reviews := map[];
    }

    /** The aggregate of one teacher's visible booking-tied reviews, then the guarded update. */
    method RecomputeTeacherRating(teacher: Id)
      modifies this`standings
      ensures Contents() == Recompute(old(Contents()), teacher)
    {
      var left: set<int> := reviews.Keys;
      var sum, n := 0, 0;
      ghost var done: set<Id> := {};
      assert Stars(reviews, {}) == map[];
      while left != {}
        invariant Contents() == old(Contents()) && left <= reviews.Keys
        invariant done == set id | id in reviews && id !in left && Counts(reviews[id], teacher)
        invariant sum == StarSum(reviews, done) && n == |done|
        decreases |left|
      {
        EmptyOrInhabited(left);
        var id :| id in left;
        left := left - {id};
        if Counts(reviews[id], teacher) {
          StarJoins(reviews, done, id);
          sum := sum + reviews[id].rating;
          n := n + 1;
          done := done + {id};
        }
      }
      assert done == Counted(reviews, teacher);
      if teacher in standings {
        standings := standings[teacher := Fold(standings[teacher], sum, n)];
      }
    }

    method CreateReview(id: Id, r: Review) returns (inserted: bool)
      requires id !in reviews && r.booking.Some?
      modifies this
      ensures (Contents(), inserted) == Insert(old(Contents()), id, r)
    {
      if Reviewed(reviews, r.booking.value) {
        return false;
      }
      reviews := reviews[id := r];
      RecomputeTeacherRating(r.teacher);
      return true;
    }

    method SetReviewHidden(id: Id, hidden: bool) returns (found: bool)
      modifies this
      ensures (Contents(), found) == SetHidden(old(Contents()), id, hidden)
    {
      if id !in reviews {
        return false;
      }
      var row := reviews[id];
      reviews := reviews[id := row.(hidden := hidden)];
      RecomputeTeacherRating(row.teacher);
      return true;
    }

    method RemoveReview(id: Id) returns (found: bool)
      modifies this
      ensures (Contents(), found) == Remove(old(Contents()), id)
    {
      if id !in reviews {
        return false;
      }
      var row := reviews[id];
      reviews := reviews - {id};
      RecomputeTeacherRating(row.teacher);
      return true;
    }
  }

  lemma StarJoins(reviews: map<Id, Review>, ids: set<Id>, id: Id)
    requires id in reviews && id !in ids
    ensures StarSum(reviews, ids + {id}) == StarSum(reviews, ids) + reviews[id].rating
    ensures |ids + {id}| == |ids| + 1
  {
    assert Stars(reviews, ids + {id}) == Stars(reviews, ids)[id := reviews[id].rating];
    SumPut(Stars(reviews, ids), id, reviews[id].rating);
  }

  // --- every reachable state -------------------------------------------------------------

  /** Every teacher's derived pair is what its baseline and visible reviews define. */
  ghost predicate Settled(b: Board) {
    forall t :: t in b.standings ==> b.standings[t] == Defined(b.reviews, t, b.standings[t])
  }

  ghost predicate WellRated(b: Board) {
    && (forall id :: id in b.reviews ==> 1 <= b.reviews[id].rating <= 5)
    && (forall t :: t in b.standings ==> 0.0 <= b.standings[t].base <= 5.0)
  }

  ghost predicate OnePerBooking(reviews: map<Id, Review>) {
    forall i, j :: i in reviews && j in reviews && i != j && reviews[i].booking.Some? ==>
      reviews[i].booking != reviews[j].booking
  }

  ghost predicate SameBaselines(a: Board, b: Board) {
    && a.standings.Keys == b.standings.Keys
    && forall t :: t in a.standings ==>
         a.standings[t].base == b.standings[t].base && a.standings[t].baseCount == b.standings[t].baseCount
  }

  datatype Op =
    | OpCreate(id: Id, review: Review)
    | OpHide(id: Id)
    | OpUnhide(id: Id)
    | OpRemove(id: Id)

  /** Generated ids are fresh and the service lets only 1 to 5 stars through. */
  predicate Allowed(b: Board, op: Op) {
    op.OpCreate? ==> op.id !in b.reviews && op.review.booking.Some? && 1 <= op.review.rating <= 5
  }

  ghost function Apply(b: Board, op: Op): Board {
    if !Allowed(b, op) then b
    else
      match op
      case OpCreate(id, r) => Insert(b, id, r).0
      case OpHide(id) => SetHidden(b, id, true).0
      case OpUnhide(id) => SetHidden(b, id, false).0
      case OpRemove(id) => Remove(b, id).0
  }

  ghost function RunOps(b: Board, ops: seq<Op>): Board
    decreases |ops|
  {
    if ops == [] then b else RunOps(Apply(b, ops[0]), ops[1..])
  }

  /** Rewriting reviews of one teacher leaves every other teacher's reviews as they were. */
  lemma OthersUntouched(before: map<Id, Review>, after: map<Id, Review>, teacher: Id, other: Id)
    requires teacher != other
    requires forall id :: id in before && before[id].teacher != teacher ==> id in after && after[id] == before[id]
    requires forall id :: id in after && after[id].teacher != teacher ==> id in before && after[id] == before[id]
    ensures Counted(after, other) == Counted(before, other)
    ensures StarSum(after, Counted(after, other)) == StarSum(before, Counted(before, other))
  {
    forall id ensures id in Counted(after, other) <==> id in Counted(before, other) {
    }
    assert Stars(after, Counted(after, other)) == Stars(before, Counted(before, other));
  }

  /** A write to one teacher's reviews followed by the recompute settles the whole board again. */
  lemma RecomputeSettles(b: Board, reviews: map<Id, Review>, teacher: Id)
    requires Settled(b)
    requires forall id :: id in b.reviews && b.reviews[id].teacher != teacher ==> id in reviews && reviews[id] == b.reviews[id]
    requires forall id :: id in reviews && reviews[id].teacher != teacher ==> id in b.reviews && reviews[id] == b.reviews[id]
    ensures var after := Recompute(b.(reviews := reviews), teacher);
            Settled(after) && SameBaselines(b, after) && after.reviews == reviews
  {
    hide Counted, StarSum, Fold;
    var after := Recompute(b.(reviews := reviews), teacher);
    forall t | t in after.standings ensures after.standings[t] == Defined(reviews, t, after.standings[t]) {
      if t != teacher { OthersUntouched(b.reviews, reviews, teacher, t); }
      FoldTwice(b.standings[t], StarSum(reviews, Counted(reviews, t)), |Counted(reviews, t)|);
    }
    BaselinesKept(b, reviews, teacher);
  }

  lemma BaselinesKept(b: Board, reviews: map<Id, Review>, teacher: Id)
    ensures SameBaselines(b, Recompute(b.(reviews := reviews), teacher))
  {
  }

  lemma FoldTwice(s: Standing, sum: int, n: nat)
    ensures Fold(Fold(s, sum, n), sum, n) == Fold(s, sum, n)
  {
  }

  /** The reviews are as given, and every other teacher's standing is as it was. */
  ghost predicate Wrote(before: Board, after: Board, reviews: map<Id, Review>, teacher: Id) {
    && after.reviews == reviews && after.standings.Keys == before.standings.Keys
    && forall t :: t in before.standings && t != teacher ==> after.standings[t] == before.standings[t]
  }

  /** What each write does to the reviews: one row added, one flag set, or one row gone; a refused one does nothing. */
  lemma WriteOutcome(b: Board, id: Id, r: Review, hidden: bool)
    requires r.booking.Some?
    ensures var (after, inserted) := Insert(b, id, r);
            && (inserted <==> forall k :: k in b.reviews ==> b.reviews[k].booking != r.booking)
            && (if inserted then Wrote(b, after, b.reviews[id := r], r.teacher) else after == b)
    ensures var (after, found) := SetHidden(b, id, hidden);
            && (found <==> id in b.reviews)
            && (if found then
                  var row := b.reviews[id];
                  Wrote(b, after, b.reviews[id := Review(row.teacher, row.student, row.booking, row.rating, row.comment, hidden)],
                        row.teacher)
                else after == b)
    ensures var (after, found) := Remove(b, id);
            && (found <==> id in b.reviews)
            && (if found then Wrote(b, after, map k | k in b.reviews && k != id :: b.reviews[k], b.reviews[id].teacher) else after == b)
  {
    hide Defined;
    assert b.reviews - {id} == map k | k in b.reviews && k != id :: b.reviews[k];
  }

  /** Every write leaves ratings in range and one review per booking. */
  lemma ApplyKeepsRows(b: Board, op: Op)
    requires WellRated(b) && OnePerBooking(b.reviews)
    ensures WellRated(Apply(b, op)) && OnePerBooking(Apply(b, op).reviews)
  {
    hide StarSum, RoundTenth, Mean, Counted;
  }

  lemma ApplySettles(b: Board, op: Op)
    requires Settled(b) && WellRated(b) && OnePerBooking(b.reviews)
    ensures var after := Apply(b, op);
            Settled(after) && WellRated(after) && OnePerBooking(after.reviews) && SameBaselines(b, after)
  {
    hide Settled, WellRated, OnePerBooking, SameBaselines, Recompute;
    ApplyKeepsRows(b, op);
    SameBaselinesRefl(b);
    if Allowed(b, op) {
      match op
      case OpCreate(id, r) => RecomputeSettles(b, b.reviews[id := r], r.teacher);
      case OpHide(id) =>
        if id in b.reviews { RecomputeSettles(b, b.reviews[id := b.reviews[id].(hidden := true)], b.reviews[id].teacher); }
      case OpUnhide(id) =>
        if id in b.reviews { RecomputeSettles(b, b.reviews[id := b.reviews[id].(hidden := false)], b.reviews[id].teacher); }
      case OpRemove(id) =>
        if id in b.reviews { RecomputeSettles(b, b.reviews - {id}, b.reviews[id].teacher); }
    }
  }

  lemma SameBaselinesRefl(b: Board)
    ensures SameBaselines(b, b)
  {
  }

  /** After any run of creates, hides, unhides and removals the aggregate equals its definition. */
  lemma {:induction false} AggregateIsItsDefinition(b: Board, ops: seq<Op>)
    requires Settled(b) && WellRated(b) && OnePerBooking(b.reviews)
    ensures var after := RunOps(b, ops);
            Settled(after) && WellRated(after) && OnePerBooking(after.reviews) && SameBaselines(b, after)
    decreases |ops|
  {
    hide Settled, WellRated, OnePerBooking, Apply;
    if ops != [] {
      ApplySettles(b, ops[0]);
      AggregateIsItsDefinition(Apply(b, ops[0]), ops[1..]);
    }
  }

  /** Settled boards with the same reviews and baselines are the same board. */
  lemma SettledIsDetermined(a: Board, b: Board)
    requires Settled(a) && Settled(b) && SameBaselines(a, b) && a.reviews == b.reviews
    ensures a == b
  {
  }

  /** The order of operations never shows: runs that leave the same reviews leave the same ratings. */
  lemma OrderNeverShows(b: Board, xs: seq<Op>, ys: seq<Op>)
    requires Settled(b) && WellRated(b) && OnePerBooking(b.reviews)
    requires RunOps(b, xs).reviews == RunOps(b, ys).reviews
    ensures RunOps(b, xs) == RunOps(b, ys)
  {
    hide Settled, WellRated, OnePerBooking, RunOps;
    AggregateIsItsDefinition(b, xs);
    AggregateIsItsDefinition(b, ys);
    SettledIsDetermined(RunOps(b, xs), RunOps(b, ys));
  }

  /** Unhide undoes hide, and removing undoes creating: the whole board is back as it was. */
  lemma UnhideUndoesHide(b: Board, id: Id)
    requires Settled(b) && WellRated(b) && OnePerBooking(b.reviews)
    requires id in b.reviews && !b.reviews[id].hidden
    ensures RunOps(b, [OpHide(id), OpUnhide(id)]) == b
  {
    hide Settled, WellRated, OnePerBooking, SameBaselines;
    AggregateIsItsDefinition(b, [OpHide(id), OpUnhide(id)]);
    TwoOps(b, OpHide(id), OpUnhide(id));
    assert RunOps(b, [OpHide(id), OpUnhide(id)]).reviews == b.reviews;
    SettledIsDetermined(b, RunOps(b, [OpHide(id), OpUnhide(id)]));
  }

  lemma RemoveUndoesCreate(b: Board, id: Id, r: Review)
    requires Settled(b) && WellRated(b) && OnePerBooking(b.reviews)
    requires Allowed(b, OpCreate(id, r)) && !Reviewed(b.reviews, r.booking.value)
    ensures RunOps(b, [OpCreate(id, r), OpRemove(id)]) == b
  {
    hide Settled, WellRated, OnePerBooking, SameBaselines;
    AggregateIsItsDefinition(b, [OpCreate(id, r), OpRemove(id)]);
    TwoOps(b, OpCreate(id, r), OpRemove(id));
    assert RunOps(b, [OpCreate(id, r), OpRemove(id)]).reviews == b.reviews;
    SettledIsDetermined(b, RunOps(b, [OpCreate(id, r), OpRemove(id)]));
  }

  lemma TwoOps(b: Board, x: Op, y: Op)
    ensures RunOps(b, [x, y]) == Apply(Apply(b, x), y)
  {
    assert [x, y][1..] == [y] && [y][1..] == [];
    assert RunOps(Apply(b, x), [y]) == RunOps(Apply(Apply(b, x), y), []);
  }

  // --- the number itself -----------------------------------------------------------------

  /** `n` reviews of one to five stars add up to between n and 5n. */
  lemma {:induction false} StarSumBounds(reviews: map<Id, Review>, ids: set<Id>)
    requires forall id :: id in ids ==> id in reviews && 1 <= reviews[id].rating <= 5
    ensures |ids| <= StarSum(reviews, ids) <= 5 * |ids|
    decreases |ids|
  {
    if ids == {} {
      assert Stars(reviews, ids) == map[];
    } else {
      EmptyOrInhabited(ids);
      var id :| id in ids;
      StarSumBounds(reviews, ids - {id});
      StarJoins(reviews, ids - {id}, id);
      assert ids - {id} + {id} == ids;
    }
  }

  lemma TimesKeepsOrder(x: real, y: real, k: real)
    requires k >= 0.0 && x <= y
    ensures x * k <= y * k
  {
    assert (y - x) * k >= 0.0;
    assert (y - x) * k == y * k - x * k;
  }

  lemma TimesKeepsStrictOrder(x: real, y: real, k: real)
    requires k > 0.0 && x < y
    ensures x * k < y * k
  {
    assert (y - x) * k > 0.0;
    assert (y - x) * k == y * k - x * k;
  }

  /** Comparing a quotient is comparing before the division. */
  lemma QuotientAtMost(x: real, y: real, k: real)
    requires k > 0.0 && x <= y * k
    ensures x / k <= y
  {
    var q := x / k;
    assert q * k == x;
    if y < q { TimesKeepsStrictOrder(y, q, k); }
  }

  lemma QuotientAtLeast(x: real, y: real, k: real)
    requires k > 0.0 && y * k <= x
    ensures y <= x / k
  {
    var q := x / k;
    assert q * k == x;
    if q < y { TimesKeepsStrictOrder(q, y, k); }
  }

  lemma ZeroTimes(k: real)
    ensures 0.0 * k == 0.0
  {
  }

  lemma TotalInRange(base: real, baseCount: nat, sum: int, n: nat)
    requires 0.0 <= base <= 5.0 && n <= sum <= 5 * n
    ensures 0.0 <= Total(base, baseCount, sum) <= 5.0 * (baseCount + n) as real
  {
    var k := baseCount as real;
    TimesKeepsOrder(0.0, base, k);
    TimesKeepsOrder(base, 5.0, k);
    ZeroTimes(k);
  }

  lemma MeanInRange(base: real, baseCount: nat, sum: int, n: nat)
    requires 0.0 <= base <= 5.0 && n <= sum <= 5 * n && baseCount + n > 0
    ensures 0.0 <= Mean(base, baseCount, sum, n) <= 5.0
  {
    hide Total;
    var total, count := Total(base, baseCount, sum), (baseCount + n) as real;
    TotalInRange(base, baseCount, sum, n);
    ZeroTimes(count);
    QuotientAtMost(total, 5.0, count);
    QuotientAtLeast(total, 0.0, count);
  }

  /**
    In range inputs never reach the clamp: the displayed rating is the exact mean rounded
    to the nearest tenth, ties up, and lies between 0 and 5 by itself.
  */
  lemma ClampNeverActs(b: Board, t: Id)
    requires Settled(b) && WellRated(b) && t in b.standings && b.standings[t].count > 0
    ensures var s := b.standings[t];
            var ids := Counted(b.reviews, t);
            && s.count == s.baseCount + |ids|
            && var mean := Mean(s.base, s.baseCount, StarSum(b.reviews, ids), |ids|);
               && s.tenths == RoundTenth(mean)
               && 0 <= s.tenths <= 50
               && 10.0 * mean - 0.5 < s.tenths as real <= 10.0 * mean + 0.5
  {
    hide StarSum, Mean;
    var s := b.standings[t];
    var ids := Counted(b.reviews, t);
    assert s == Defined(b.reviews, t, s);
    StarSumBounds(b.reviews, ids);
    MeanInRange(s.base, s.baseCount, StarSum(b.reviews, ids), |ids|);
  }

  lemma BelowTimes(low: real, y: real, count: real, product: real)
    requires count > 0.0 && y * count == product && low <= y
    ensures low * count <= product
  {
    TimesKeepsOrder(low, y, count);
  }

  lemma AboveTimes(high: real, y: real, count: real, product: real)
    requires count > 0.0 && y * count == product && y < high
    ensures product < high * count
  {
    TimesKeepsStrictOrder(y, high, count);
  }

  lemma TwentyTimes(mean: real, total: real, count: real)
    requires mean * count == total
    ensures (20.0 * mean) * count == 20.0 * total
  {
    assert (20.0 * mean) * count == 20.0 * (mean * count);
  }

  /** Half a tenth either way, before the division. */
  lemma NearestBeforeDivision(total: real, count: real, tenths: int)
    requires count > 0.0
    requires 10.0 * (total / count) - 0.5 < tenths as real <= 10.0 * (total / count) + 0.5
    ensures (2 * tenths - 1) as real * count <= 20.0 * total < (2 * tenths + 1) as real * count
  {
    var mean := total / count;
    assert mean * count == total;
    TwentyTimes(mean, total, count);
    BelowTimes((2 * tenths - 1) as real, 20.0 * mean, count, 20.0 * total);
    AboveTimes((2 * tenths + 1) as real, 20.0 * mean, count, 20.0 * total);
  }

  lemma NearestTenth(base: real, baseCount: nat, sum: int, n: nat, tenths: int)
    requires baseCount + n > 0
    requires var mean := Mean(base, baseCount, sum, n); 10.0 * mean - 0.5 < tenths as real <= 10.0 * mean + 0.5
    ensures (2 * tenths - 1) as real * (baseCount + n) as real
         <= 20.0 * (base * baseCount as real + sum as real)
          < (2 * tenths + 1) as real * (baseCount + n) as real
  {
    var total := base * baseCount as real + sum as real;
    NearestBeforeDivision(total, (baseCount + n) as real, tenths);
  }

  /**
    The shown rating, from the rows alone: the tenth nearest to all stars (the baseline's
    and those of the teacher's visible, booking-tied reviews) over all their number, ties up.
  */
  lemma ShownRating(b: Board, t: Id)
    requires Settled(b) && WellRated(b) && t in b.standings && b.standings[t].count > 0
    ensures var s := b.standings[t];
            var visible := set id | id in b.reviews && b.reviews[id].teacher == t
                                    && b.reviews[id].booking != None && !b.reviews[id].hidden;
            var stars := Sum(map id | id in visible :: b.reviews[id].rating);
            && s.count == s.baseCount + |visible|
            && (2 * s.tenths - 1) as real * s.count as real
               <= 20.0 * (s.base * s.baseCount as real + stars as real)
                < (2 * s.tenths + 1) as real * s.count as real
  {
    hide Mean, Settled, WellRated, RoundTenth;
    var s := b.standings[t];
    var ids := Counted(b.reviews, t);
    ClampNeverActs(b, t);
    assert ids == set id | id in b.reviews && b.reviews[id].teacher == t
                           && b.reviews[id].booking != None && !b.reviews[id].hidden;
    assert Stars(b.reviews, ids) == map id | id in ids :: b.reviews[id].rating;
    NearestTenth(s.base, s.baseCount, StarSum(b.reviews, ids), |ids|, s.tenths);
  }

  /** With no visible review a teacher shows the baseline, rounded to a tenth; without a baseline, nothing. */
  lemma BaselineShownAlone(b: Board, t: Id)
    requires Settled(b) && WellRated(b) && t in b.standings
    requires forall id :: id in b.reviews && b.reviews[id].teacher == t ==> b.reviews[id].booking == None || b.reviews[id].hidden
    ensures var s := b.standings[t];
            && s.count == s.baseCount
            && (s.baseCount == 0 ==> s.tenths == 0)
            && (s.baseCount > 0 ==> (2 * s.tenths - 1) as real <= 20.0 * s.base < (2 * s.tenths + 1) as real)
  {
    hide Mean, WellRated, RoundTenth, Clamp;
    var s := b.standings[t];
    NothingCounted(b.reviews, t);
    assert s == Defined(b.reviews, t, s);
    if s.baseCount > 0 {
      ClampNeverActs(b, t);
      MeanOfBaseline(s.base, s.baseCount);
    }
  }

  lemma NothingCounted(reviews: map<Id, Review>, t: Id)
    requires forall id :: id in reviews && reviews[id].teacher == t ==> reviews[id].booking == None || reviews[id].hidden
    ensures Counted(reviews, t) == {} && StarSum(reviews, {}) == 0
  {
    assert Stars(reviews, {}) == map[];
  }

  lemma MeanOfBaseline(base: real, baseCount: nat)
    requires baseCount > 0
    ensures Mean(base, baseCount, 0, 0) == base
  {
    var k := baseCount as real;
    assert Total(base, baseCount, 0) == base * k;
    QuotientAtMost(base * k, base, k);
    QuotientAtLeast(base * k, base, k);
  }

  lemma RoundingIsMonotone(x: real, y: real)
    requires x <= y
    ensures RoundTenth(x) <= RoundTenth(y)
  {
  }

  /** Dropping a value not above the mean never lowers the mean. */
  lemma MeanRises(base: real, baseCount: nat, sum: int, n: nat, value: int)
    requires n > 0 && baseCount + n > 1
    requires value as real <= Mean(base, baseCount, sum, n)
    ensures Mean(base, baseCount, sum, n) <= Mean(base, baseCount, sum - value, n - 1)
  {
    hide Total;
    TotalDrops(base, baseCount, sum, value);
    var total, count := Total(base, baseCount, sum), (baseCount + n) as real;
    var mean := total / count;
    assert mean * count == total;
    assert mean * (count - 1.0) == total - mean;
    QuotientAtLeast(total - value as real, mean, count - 1.0);
  }

  lemma TotalDrops(base: real, baseCount: nat, sum: int, value: int)
    ensures Total(base, baseCount, sum - value) == Total(base, baseCount, sum) - value as real
  {
  }

  /**
    Taking a visible review that is not above the exact mean off display never lowers the
    rounded rating, as long as something is left to count.
  */
  lemma HidingALowReviewNeverLowers(b: Board, id: Id)
    requires Settled(b) && WellRated(b) && OnePerBooking(b.reviews)
    requires id in b.reviews && b.reviews[id].teacher in b.standings && Counts(b.reviews[id], b.reviews[id].teacher)
    requires var t := b.reviews[id].teacher;
             var s := b.standings[t];
             var ids := Counted(b.reviews, t);
             && s.baseCount + |ids| > 1
             && b.reviews[id].rating as real <= Mean(s.base, s.baseCount, StarSum(b.reviews, ids), |ids|)
    ensures var t := b.reviews[id].teacher;
            var after := SetHidden(b, id, true).0;
            t in after.standings && after.standings[t].tenths >= b.standings[t].tenths
            && after.standings[t].count == b.standings[t].count - 1
  {
    hide StarSum, Mean, Settled, WellRated, OnePerBooking, SameBaselines, RoundTenth;
    var t := b.reviews[id].teacher;
    var after := SetHidden(b, id, true).0;
    ApplySettles(b, OpHide(id));
    HiddenLeaves(b.reviews, id);
    SettledHas(b, t);
    BaselineAt(b, after, t);
    SettledHas(after, t);
    ClampNeverActs(b, t);
    ClampNeverActs(after, t);
    var s := b.standings[t];
    var sum, n := StarSum(b.reviews, Counted(b.reviews, t)), |Counted(b.reviews, t)|;
    MeanRises(s.base, s.baseCount, sum, n, b.reviews[id].rating);
    RoundingIsMonotone(Mean(s.base, s.baseCount, sum, n), Mean(s.base, s.baseCount, sum - b.reviews[id].rating, n - 1));
  }

  lemma SettledHas(b: Board, t: Id)
    requires Settled(b) && t in b.standings
    ensures b.standings[t].count == b.standings[t].baseCount + |Counted(b.reviews, t)|
  {
  }

  lemma BaselineAt(a: Board, b: Board, t: Id)
    requires SameBaselines(a, b) && t in a.standings
    ensures t in b.standings
    ensures a.standings[t].base == b.standings[t].base && a.standings[t].baseCount == b.standings[t].baseCount
  {
  }

  /** Hiding takes exactly one review, with its stars, out of the count. */
  lemma HiddenLeaves(reviews: map<Id, Review>, id: Id)
    requires id in reviews && Counts(reviews[id], reviews[id].teacher)
    ensures var t := reviews[id].teacher;
            var after := reviews[id := reviews[id].(hidden := true)];
            && |Counted(after, t)| == |Counted(reviews, t)| - 1
            && StarSum(after, Counted(after, t)) == StarSum(reviews, Counted(reviews, t)) - reviews[id].rating
  {
    var t := reviews[id].teacher;
    var after := reviews[id := reviews[id].(hidden := true)];
    assert Counted(after, t) == Counted(reviews, t) - {id};
    StarJoins(reviews, Counted(after, t), id);
    assert Counted(after, t) + {id} == Counted(reviews, t);
    assert Stars(after, Counted(after, t)) == Stars(reviews, Counted(after, t));
  }
}
