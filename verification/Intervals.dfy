/**
  Concrete [start, end) ranges and the merge step that turns a bag of them into
  maximal windows (backend/internal/bookings/bookings.go).

  Instants are whole ticks, so two ranges that touch leave no uncovered tick
  between them: "maximal run of covered ticks" is exactly "maximal window after
  merging overlapping or touching ranges".
*/
module Intervals {
  import Sorting

  datatype Interval = Interval(start: int, end: int)

  ghost predicate Has(iv: Interval, t: int) {
    iv.start <= t < iv.end
  }

  /** The ticks covered by at least one of the ranges. */
  ghost function Points(ivs: seq<Interval>): iset<int> {
    iset t, i {:trigger Has(ivs[i], t)} | 0 <= i < |ivs| && Has(ivs[i], t) :: t
  }

  ghost predicate AllNonEmpty(ivs: seq<Interval>) {
    forall i :: 0 <= i < |ivs| ==> ivs[i].start < ivs[i].end
  }

  /** Sorted, no two ranges overlapping or touching. */
  ghost predicate NormalForm(ivs: seq<Interval>) {
    && AllNonEmpty(ivs)
    && forall i, j :: 0 <= i < j < |ivs| ==> ivs[i].end < ivs[j].start
  }

  /** `w` is a maximal run of ticks inside `open`. */
  ghost predicate IsWindow(open: iset<int>, w: Interval) {
    && w.start < w.end
    && (forall t :: w.start <= t < w.end ==> t in open)
    && w.start - 1 !in open
    && w.end !in open
  }

  predicate StartsBefore(a: Interval, b: Interval) {
    a.start < b.start
  }

  lemma StartsBeforeIsOrder()
    ensures Sorting.StrictWeakOrder(StartsBefore)
  {
  }

  lemma PointsSplit(a: seq<Interval>, b: seq<Interval>)
    ensures Points(a + b) == Points(a) + Points(b)
  {
    forall t
      ensures t in Points(a + b) <==> t in Points(a) || t in Points(b)
    {
      if t in Points(a) {
        var i :| 0 <= i < |a| && Has(a[i], t);
        assert Has((a + b)[i], t);
      }
      if t in Points(b) {
        var i :| 0 <= i < |b| && Has(b[i], t);
        assert Has((a + b)[|a| + i], t);
      }
      if t in Points(a + b) {
        var i :| 0 <= i < |a + b| && Has((a + b)[i], t);
        if i < |a| { assert Has(a[i], t); } else { assert Has(b[i - |a|], t); }
      }
    }
  }

  lemma PointsOne(iv: Interval)
    ensures forall t :: t in Points([iv]) <==> Has(iv, t)
  {
    forall t | Has(iv, t) ensures t in Points([iv]) { assert Has([iv][0], t); }
  }

  lemma PointsPermutation(xs: seq<Interval>, ys: seq<Interval>)
    requires multiset(xs) == multiset(ys)
    ensures Points(xs) == Points(ys)
    ensures AllNonEmpty(xs) ==> AllNonEmpty(ys)
  {
    Sorting.PermutationFacts(xs, ys);
    forall t
      ensures t in Points(xs) <==> t in Points(ys)
    {
      if t in Points(xs) {
        var i :| 0 <= i < |xs| && Has(xs[i], t);
        assert xs[i] in ys;
        var j :| 0 <= j < |ys| && ys[j] == xs[i];
        assert Has(ys[j], t);
      }
      if t in Points(ys) {
        var i :| 0 <= i < |ys| && Has(ys[i], t);
        assert ys[i] in xs;
        var j :| 0 <= j < |xs| && xs[j] == ys[i];
        assert Has(xs[j], t);
      }
    }
    forall j | AllNonEmpty(xs) && 0 <= j < |ys| ensures ys[j].start < ys[j].end {
      assert ys[j] in xs;
    }
  }

  /**
    `mergeIntervals`: sort by start, then either extend the last window in place
    or open a new one.  The contract fixes the result completely (see
    `NormalFormUnique`), whatever order the unstable sort left equal starts in.
  */
  method MergeIntervals(ivs: seq<Interval>) returns (merged: seq<Interval>)
    requires AllNonEmpty(ivs)
    ensures NormalForm(merged)
    ensures Points(merged) == Points(ivs)
  {
    if |ivs| == 0 {
      return [];
    }
    StartsBeforeIsOrder();
    var sorted := Sorting.Sort(StartsBefore, ivs);
    PointsPermutation(ivs, sorted);
    Sorting.PermutationFacts(ivs, sorted);
    hide NormalForm, Points;
    merged := [sorted[0]];
    OneWindow(sorted);
    for k := 1 to |sorted|
      invariant |merged| >= 1
      invariant NormalForm(merged)
      invariant merged[|merged| - 1].start <= sorted[k - 1].start
      invariant Points(merged) == Points(sorted[..k])
    {
      var iv := sorted[k];
      var last := merged[|merged| - 1];
      NextRange(sorted, k);
      if iv.start <= last.end {
        Absorb(merged, iv);
        if last.end < iv.end {
          merged := merged[|merged| - 1 := Interval(last.start, iv.end)];
        }
        continue;
      }
      OpenAnother(merged, iv);
      merged := merged + [iv];
    }
    assert sorted[..|sorted|] == sorted;
  }

  lemma OneWindow(sorted: seq<Interval>)
    requires |sorted| > 0 && AllNonEmpty(sorted)
    ensures NormalForm([sorted[0]]) && Points([sorted[0]]) == Points(sorted[..1])
  {
    assert sorted[..1] == [sorted[0]];
  }

  /** The next range adds its own ticks and starts no earlier than the one before. */
  lemma NextRange(sorted: seq<Interval>, k: nat)
    requires 0 < k < |sorted| && AllNonEmpty(sorted) && Sorting.Ordered(StartsBefore, sorted)
    ensures Points(sorted[..k + 1]) == Points(sorted[..k]) + Points([sorted[k]])
    ensures sorted[k - 1].start <= sorted[k].start && sorted[k].start < sorted[k].end
  {
    assert sorted[..k + 1] == sorted[..k] + [sorted[k]];
    PointsSplit(sorted[..k], [sorted[k]]);
    assert !StartsBefore(sorted[k], sorted[k - 1]);
  }

  /** Extending the last window over a range that reaches it. */
  lemma Absorb(merged: seq<Interval>, iv: Interval)
    requires |merged| > 0 && NormalForm(merged) && iv.start < iv.end
    requires var last := merged[|merged| - 1]; last.start <= iv.start <= last.end
    ensures var n, last := |merged| - 1, merged[|merged| - 1];
            var grown := if last.end < iv.end then merged[n := Interval(last.start, iv.end)] else merged;
            NormalForm(grown) && Points(grown) == Points(merged) + Points([iv])
  {
    var n, last := |merged| - 1, merged[|merged| - 1];
    var init, wide := merged[..n], Interval(last.start, if last.end < iv.end then iv.end else last.end);
    assert merged == init + [last] && merged[n := wide] == init + [wide];
    PointsSplit(init, [last]);
    PointsSplit(init, [wide]);
    PointsOne(last);
    PointsOne(wide);
    PointsOne(iv);
  }

  /** Opening a new window past the last one. */
  lemma OpenAnother(merged: seq<Interval>, iv: Interval)
    requires |merged| > 0 && NormalForm(merged) && iv.start < iv.end && merged[|merged| - 1].end < iv.start
    ensures NormalForm(merged + [iv]) && Points(merged + [iv]) == Points(merged) + Points([iv])
  {
    PointsSplit(merged, [iv]);
    forall i | 0 <= i < |merged| ensures merged[i].end < iv.start {
      assert i < |merged| - 1 ==> merged[i].end < merged[|merged| - 1].start;
    }
  }

  /** The tick just past a window is not covered by any other. */
  lemma GapAfter(ivs: seq<Interval>, i: nat)
    requires NormalForm(ivs) && i < |ivs|
    ensures ivs[i].end !in Points(ivs)
    ensures ivs[i].start - 1 !in Points(ivs)
  {
  }

  /** The windows of a normal form are exactly the maximal runs of its points. */
  lemma NormalFormWindows(ivs: seq<Interval>)
    requires NormalForm(ivs)
    ensures forall w :: w in ivs <==> IsWindow(Points(ivs), w)
  {
    forall w
      ensures w in ivs <==> IsWindow(Points(ivs), w)
    {
      if w in ivs {
        var i :| 0 <= i < |ivs| && ivs[i] == w;
        forall t | w.start <= t < w.end ensures t in Points(ivs) { assert Has(ivs[i], t); }
      }
      if IsWindow(Points(ivs), w) {
        assert w.start in Points(ivs);
        var i :| 0 <= i < |ivs| && Has(ivs[i], w.start);
        var v := ivs[i];
        assert Has(v, w.start - 1) ==> w.start - 1 in Points(ivs);
        assert Has(v, w.end) ==> w.end in Points(ivs);
        GapAfter(ivs, i);
        assert v == w;
      }
    }
  }

  /** The normal form is unique: equal cover, equal list. */
  lemma {:induction false} NormalFormUnique(a: seq<Interval>, b: seq<Interval>)
    requires NormalForm(a) && NormalForm(b)
    requires Points(a) == Points(b)
    ensures a == b
  {
    NormalFormWindows(a);
    NormalFormWindows(b);
    NormalFormStrict(a);
    NormalFormStrict(b);
    StartsBeforeIsOrder();
    forall w ensures w in a <==> w in b {
      assert w in a <==> IsWindow(Points(a), w);
      assert w in b <==> IsWindow(Points(b), w);
    }
    Sorting.StrictlyOrderedUnique(StartsBefore, a, b);
  }

  lemma NormalFormStrict(a: seq<Interval>)
    requires NormalForm(a)
    ensures Sorting.StrictlyOrdered(StartsBefore, a)
  {
  }

  /** Merging depends only on which ticks are covered, not on how they were cut up. */
  lemma MergeDependsOnCoverOnly(xs: seq<Interval>, ys: seq<Interval>, mx: seq<Interval>, my: seq<Interval>)
    requires Points(xs) == Points(ys)
    requires NormalForm(mx) && Points(mx) == Points(xs)
    requires NormalForm(my) && Points(my) == Points(ys)
    ensures mx == my
  {
    NormalFormUnique(mx, my);
  }

  function OverlapsAny(start: int, end: int, booked: seq<Interval>): bool {
    exists i :: 0 <= i < |booked| && start < booked[i].end && booked[i].start < end
  }

  /** `overlapsAny`: the linear scan over the booked ranges. */
  method CheckOverlap(start: int, end: int, booked: seq<Interval>) returns (hit: bool)
    ensures hit == OverlapsAny(start, end, booked)
  {
    for i := 0 to |booked|
      invariant !OverlapsAny(start, end, booked[..i])
    {
      if start < booked[i].end && booked[i].start < end {
        return true;
      }
      assert forall j :: 0 <= j < i ==> booked[..i][j] == booked[j];
    }
    assert booked[..|booked|] == booked;
    return false;
  }
}
