/**
  Weekly availability: validation of a proposed set and its canonical storage
  (backend/internal/availability/availability.go, service.go).
*/
module Availability {
  import opened Options
  import opened Projection
  import Sorting
  import Sums

  const MAX_SLOTS: nat := 100
  const NIL_ID: nat := 0

  datatype Fault = BadWeekday | BadStart | BadEnd | Reversed | OffGrid

  /** Outcome of `validateSlots`; the index is the first malformed slot. */
  datatype Verdict = Accepted | TooMany | Malformed(index: nat, fault: Fault) | Overlapping(day: int)

  predicate Overlap(a: AvailabilitySpan, b: AvailabilitySpan) {
    a.weekday == b.weekday && a.startMinute < b.endMinute && b.startMinute < a.endMinute
  }

  ghost predicate PairwiseApart(slots: seq<AvailabilitySpan>) {
    forall i, j :: 0 <= i < j < |slots| ==> !Overlap(slots[i], slots[j])
  }

  /** What a weekly set has to satisfy, said without sorting. */
  ghost predicate Acceptable(slots: seq<AvailabilitySpan>) {
    |slots| <= 100 && ValidSpans(slots) && PairwiseApart(slots)
  }

  predicate StartsFirst(a: AvailabilitySpan, b: AvailabilitySpan) {
    a.startMinute < b.startMinute
  }

  /** `sortSlots`' order: weekday, then start. */
  predicate CanonicalLess(a: AvailabilitySpan, b: AvailabilitySpan) {
    if a.weekday != b.weekday then a.weekday < b.weekday else a.startMinute < b.startMinute
  }

  lemma OrdersAreOrders()
    ensures Sorting.StrictWeakOrder(StartsFirst)
    ensures Sorting.StrictWeakOrder(CanonicalLess)
  {
  }

  /** What each refusal of a single slot says about it. */
  predicate HasFault(s: AvailabilitySpan, f: Fault) {
    match f
    case BadWeekday => s.weekday < 0 || 6 < s.weekday
    case BadStart => s.startMinute < 0 || 1440 <= s.startMinute
    case BadEnd => s.endMinute <= 0 || 1440 < s.endMinute
    case Reversed => s.endMinute <= s.startMinute
    case OffGrid => s.startMinute % 15 != 0 || s.endMinute % 15 != 0
  }

  function Rank(f: Fault): nat {
    match f case BadWeekday => 0 case BadStart => 1 case BadEnd => 2 case Reversed => 3 case OffGrid => 4
  }

  /** Of a slot's faults the first is named. */
  ghost predicate FirstFault(s: AvailabilitySpan, f: Fault) {
    HasFault(s, f) && forall g :: HasFault(s, g) ==> Rank(f) <= Rank(g)
  }

  /** A slot without any fault is fit for the table, and only such a one. */
  lemma FaultlessIsValid(s: AvailabilitySpan)
    ensures ValidSpan(s) <==> forall f :: !HasFault(s, f)
  {
    if forall f :: !HasFault(s, f) {
      assert !HasFault(s, BadWeekday) && !HasFault(s, BadStart) && !HasFault(s, BadEnd);
      assert !HasFault(s, Reversed) && !HasFault(s, OffGrid);
    }
  }

  /** The slots of one weekday, in input order. */
  function OfDay(slots: seq<AvailabilitySpan>, day: int): seq<AvailabilitySpan> {
    if slots == [] then []
    else
      var init := OfDay(slots[..|slots| - 1], day);
      var last := slots[|slots| - 1];
      if last.weekday == day then init + [last] else init
  }

  lemma {:induction false} OfDayMembers(slots: seq<AvailabilitySpan>, day: int)
    ensures forall s :: s in OfDay(slots, day) <==> s in slots && s.weekday == day
  {
    if slots != [] {
      var init, last := slots[..|slots| - 1], slots[|slots| - 1];
      assert slots == init + [last];
      OfDayMembers(init, day);
    }
  }

  lemma {:induction false} OfDayApart(slots: seq<AvailabilitySpan>, day: int)
    requires ApartOn(slots, day)
    ensures PairwiseApart(OfDay(slots, day))
  {
    if slots != [] {
      var init, last := slots[..|slots| - 1], slots[|slots| - 1];
      OfDayApart(init, day);
      OfDayMembers(init, day);
      forall s | s in OfDay(init, day) ensures !Overlap(s, last) {
        var i :| 0 <= i < |init| && init[i] == s;
        assert !Overlap(slots[i], slots[|slots| - 1]);
      }
    }
  }

  ghost predicate InOrder(day: seq<AvailabilitySpan>, a: AvailabilitySpan, b: AvailabilitySpan) {
    exists p, q :: 0 <= p < q < |day| && day[p] == a && day[q] == b
  }

  /** Two slots of one weekday keep their order inside that weekday's list. */
  lemma {:induction false} OfDayKeepsPairs(slots: seq<AvailabilitySpan>, i: nat, j: nat)
    requires i < j < |slots| && slots[i].weekday == slots[j].weekday
    ensures InOrder(OfDay(slots, slots[i].weekday), slots[i], slots[j])
  {
    var n := |slots| - 1;
    var init, wd := slots[..n], slots[i].weekday;
    var before, day := OfDay(init, wd), OfDay(slots, wd);
    if j < n {
      OfDayKeepsPairs(init, i, j);
      var p, q :| 0 <= p < q < |before| && before[p] == slots[i] && before[q] == slots[j];
      assert slots == init + [slots[n]];
      assert before <= day;
      assert day[p] == slots[i] && day[q] == slots[j];
    } else {
      OfDayMembers(init, wd);
      assert init[i] in before;
      var p :| 0 <= p < |before| && before[p] == slots[i];
      assert day == before + [slots[n]];
      assert day[p] == slots[i] && day[|before|] == slots[j];
    }
  }

  ghost predicate ApartOn(slots: seq<AvailabilitySpan>, day: int) {
    forall i, j :: 0 <= i < j < |slots| && slots[i].weekday == day ==> !Overlap(slots[i], slots[j])
  }

  /** Days that are apart one by one make the whole set apart. */
  lemma DaysApart(slots: seq<AvailabilitySpan>)
    requires forall day :: PairwiseApart(OfDay(slots, day))
    ensures PairwiseApart(slots)
  {
    forall i, j | 0 <= i < j < |slots| ensures !Overlap(slots[i], slots[j]) {
      if slots[i].weekday == slots[j].weekday {
        OfDayKeepsPairs(slots, i, j);
        var day := OfDay(slots, slots[i].weekday);
        var p, q :| 0 <= p < q < |day| && day[p] == slots[i] && day[q] == slots[j];
        assert PairwiseApart(day);
      }
    }
  }

  ghost predicate AdjacentApart(sorted: seq<AvailabilitySpan>) {
    forall i :: 0 < i < |sorted| ==> sorted[i - 1].endMinute <= sorted[i].startMinute
  }

  /** On one weekday, sorting and comparing neighbours decides pairwise overlap. */
  lemma SortThenAdjacent(day: seq<AvailabilitySpan>, sorted: seq<AvailabilitySpan>, wd: int)
    requires ValidSpans(day) && forall s :: s in day ==> s.weekday == wd
    requires multiset(sorted) == multiset(day) && Sorting.Ordered(StartsFirst, sorted)
    ensures AdjacentApart(sorted) <==> PairwiseApart(day)
  {
    OrdersAreOrders();
    Sorting.PermutationFacts(sorted, day);
    forall i | 0 <= i < |sorted| ensures ValidSpan(sorted[i]) && sorted[i].weekday == wd {
      assert sorted[i] in day;
    }
    if PairwiseApart(day) {
      Sorting.OrderedDistinct(StartsFirst, day, sorted) by {
        forall i, j | 0 <= i < j < |day| ensures StartsFirst(day[i], day[j]) || StartsFirst(day[j], day[i]) {
          assert day[i] in day && day[j] in day && !Overlap(day[i], day[j]);
        }
      }
      forall i | 0 < i < |sorted| ensures sorted[i - 1].endMinute <= sorted[i].startMinute {
        assert StartsFirst(sorted[i - 1], sorted[i]);
        assert sorted[i - 1] in day && sorted[i] in day;
        var p :| 0 <= p < |day| && day[p] == sorted[i - 1];
        var q :| 0 <= q < |day| && day[q] == sorted[i];
        assert p < q || q < p;
      }
    }
    if AdjacentApart(sorted) {
      AdjacentChains(sorted);
      Sorting.NoRepeatsPermutation(sorted, day);
      forall i, j | 0 <= i < j < |day| ensures !Overlap(day[i], day[j]) {
        assert day[i] in day && day[j] in day;
        assert day[i] in sorted && day[j] in sorted;
        var p :| 0 <= p < |sorted| && sorted[p] == day[i];
        var q :| 0 <= q < |sorted| && sorted[q] == day[j];
        assert p < q || q < p;
      }
    }
  }

  lemma {:induction false} AdjacentChains(sorted: seq<AvailabilitySpan>)
    requires ValidSpans(sorted) && AdjacentApart(sorted)
    ensures forall i, j :: 0 <= i < j < |sorted| ==> sorted[i].endMinute <= sorted[j].startMinute
  {
    if |sorted| > 1 {
      var init := sorted[..|sorted| - 1];
      AdjacentChains(init);
      var n := |sorted| - 1;
      forall i | 0 <= i < n ensures sorted[i].endMinute <= sorted[n].startMinute {
        if i < n - 1 {
          assert init[i].endMinute <= init[n - 1].startMinute;
          assert ValidSpan(sorted[n - 1]);
        }
      }
      forall i, j | 0 <= i < j < n ensures sorted[i].endMinute <= sorted[j].startMinute {
        assert init[i].endMinute <= init[j].startMinute;
      }
    }
  }

  /** The neighbour scan over one sorted weekday. */
  method AdjacentOverlap(sorted: seq<AvailabilitySpan>) returns (found: bool)
    ensures found == !AdjacentApart(sorted)
  {
    var i := 1;
    while i < |sorted|
      invariant 1 <= i
      invariant forall k :: 0 < k < i && k < |sorted| ==> sorted[k - 1].endMinute <= sorted[k].startMinute
    {
      if sorted[i].startMinute < sorted[i - 1].endMinute {
        return true;
      }
      i := i + 1;
    }
    return false;
  }

  /** One weekday of the second loop: sort the bucket in place, then scan it. */
  method DayOverlaps(bucket: seq<AvailabilitySpan>, ghost wd: int) returns (found: bool)
    requires ValidSpans(bucket) && forall s :: s in bucket ==> s.weekday == wd
    ensures found == !PairwiseApart(bucket)
  {
    OrdersAreOrders();
    var sorted := Sorting.Sort(StartsFirst, bucket);
    SortThenAdjacent(bucket, sorted, wd);
    found := AdjacentOverlap(sorted);
  }

  lemma BucketValid(slots: seq<AvailabilitySpan>, day: int)
    requires ValidSpans(slots)
    ensures ValidSpans(OfDay(slots, day)) && forall s :: s in OfDay(slots, day) ==> s.weekday == day
  {
  }

  ghost predicate Bucketed(slots: seq<AvailabilitySpan>, byDay: map<int, seq<AvailabilitySpan>>) {
    forall day :: OfDay(slots, day) == if day in byDay then byDay[day] else []
  }

  /** The second loop of `validateSlots`; Go visits the buckets in arbitrary order, and so does this. */
  method ScanBuckets(slots: seq<AvailabilitySpan>, byDay: map<int, seq<AvailabilitySpan>>) returns (v: Verdict)
    requires ValidSpans(slots) && Bucketed(slots, byDay)
    ensures if PairwiseApart(slots) then v == Accepted
            else v.Overlapping? && !ApartOn(slots, v.day)
  {
    var days: set<int> := byDay.Keys;
    while days != {}
      invariant days <= byDay.Keys
      invariant forall day :: day in byDay.Keys - days ==> PairwiseApart(byDay[day])
      decreases |days|
    {
      Sums.EmptyOrInhabited(days);
      var day :| day in days;
      days := days - {day};
      BucketValid(slots, day);
      var found := DayOverlaps(byDay[day], day);
      if found {
        if ApartOn(slots, day) { OfDayApart(slots, day); }
        return Overlapping(day);
      }
    }
    DaysApart(slots);
    return Accepted;
  }

  /** A verdict's own words hold of the set: too long, else the first malformed slot, else a weekday with an overlap. */
  ghost predicate Explains(slots: seq<AvailabilitySpan>, v: Verdict) {
    && (v == TooMany <==> |slots| > 100)
    && match v
       case Accepted => Acceptable(slots)
       case TooMany => true
       case Malformed(index, fault) =>
         && index < |slots| && FirstFault(slots[index], fault)
         && forall k :: 0 <= k < index ==> ValidSpan(slots[k])
       case Overlapping(day) =>
         && ValidSpans(slots)
         && exists i, j :: 0 <= i < j < |slots| && slots[i].weekday == day && Overlap(slots[i], slots[j])
  }

  /**
    `validateSlots`: field checks in input order, then per weekday sort and compare
    neighbours.
  */
  method ValidateSlots(slots: seq<AvailabilitySpan>) returns (v: Verdict)
    ensures v.Accepted? <==> Acceptable(slots)
    ensures Explains(slots, v)
  {
    if |slots| > MAX_SLOTS {
      return TooMany;
    }
    var byDay: map<int, seq<AvailabilitySpan>> := map[];
    for i := 0 to |slots|
      invariant forall k :: 0 <= k < i ==> ValidSpan(slots[k])
      invariant Bucketed(slots[..i], byDay)
    {
      var s := slots[i];
      if s.weekday < 0 || s.weekday > 6 {
        return Malformed(i, BadWeekday);
      }
      if s.startMinute < 0 || s.startMinute >= 1440 {
        return Malformed(i, BadStart);
      }
      if s.endMinute <= 0 || s.endMinute > 1440 {
        return Malformed(i, BadEnd);
      }
      if s.startMinute >= s.endMinute {
        return Malformed(i, Reversed);
      }
      if s.startMinute % 15 != 0 || s.endMinute % 15 != 0 {
        return Malformed(i, OffGrid);
      }
      assert slots[..i + 1][..i] == slots[..i];
      byDay := byDay[s.weekday := (if s.weekday in byDay then byDay[s.weekday] else []) + [s]];
    }
    assert slots[..|slots|] == slots;

    v := ScanBuckets(slots, byDay);
  }

  // --- canonical storage ---------------------------------------------------------

  /** Fit to be stored and in the order of the week: each slot on an earlier day than the next, or over before it begins. */
  ghost predicate Canonical(slots: seq<AvailabilitySpan>) {
    && Acceptable(slots)
    && forall i, j :: 0 <= i < j < |slots| ==>
         slots[i].weekday < slots[j].weekday
         || (slots[i].weekday == slots[j].weekday && slots[i].endMinute <= slots[j].startMinute)
  }

  lemma CanonicalIsSorted(slots: seq<AvailabilitySpan>)
    requires Canonical(slots)
    ensures Sorting.StrictlyOrdered(CanonicalLess, slots)
  {
    forall i, j | 0 <= i < j < |slots| ensures CanonicalLess(slots[i], slots[j]) {
      assert ValidSpan(slots[i]);
    }
  }

  lemma AcceptableComparable(slots: seq<AvailabilitySpan>)
    requires Acceptable(slots)
    ensures forall i, j :: 0 <= i < j < |slots| ==>
              CanonicalLess(slots[i], slots[j]) || CanonicalLess(slots[j], slots[i])
  {
  }

  lemma SortedIsCanonical(slots: seq<AvailabilitySpan>, sorted: seq<AvailabilitySpan>)
    requires Acceptable(slots)
    requires Sorting.Ordered(CanonicalLess, sorted) && multiset(sorted) == multiset(slots)
    ensures Canonical(sorted)
  {
    OrdersAreOrders();
    AcceptableComparable(slots);
    Sorting.PermutationFacts(sorted, slots);
    Sorting.OrderedDistinct(CanonicalLess, slots, sorted);
    forall i | 0 <= i < |sorted| ensures ValidSpan(sorted[i]) {
      assert sorted[i] in slots;
    }
    forall i, j | 0 <= i < j < |sorted| ensures !Overlap(sorted[i], sorted[j]) {
      assert sorted[i] in slots && sorted[j] in slots;
      var p :| 0 <= p < |slots| && slots[p] == sorted[i];
      var q :| 0 <= q < |slots| && slots[q] == sorted[j];
      assert CanonicalLess(sorted[i], sorted[j]);
      assert p < q || q < p;
    }
  }

  /** Every permutation of a set has the same canonical list. */
  lemma CanonicalUnique(xs: seq<AvailabilitySpan>, ys: seq<AvailabilitySpan>)
    requires Canonical(xs) && Canonical(ys)
    requires multiset(xs) == multiset(ys)
    ensures xs == ys
  {
    OrdersAreOrders();
    CanonicalIsSorted(xs);
    CanonicalIsSorted(ys);
    Sorting.PermutationFacts(xs, ys);
    Sorting.StrictlyOrderedUnique(CanonicalLess, xs, ys);
  }

  /** Acceptance does not depend on the order the slots were sent in. */
  lemma AcceptanceIgnoresOrder(xs: seq<AvailabilitySpan>, ys: seq<AvailabilitySpan>)
    requires multiset(xs) == multiset(ys) && Acceptable(xs)
    ensures Acceptable(ys)
  {
    OrdersAreOrders();
    AcceptableComparable(xs);
    Sorting.PermutationFacts(xs, ys);
    Sorting.NoRepeatsPermutation(xs, ys);
    forall i | 0 <= i < |ys| ensures ValidSpan(ys[i]) {
      assert ys[i] in xs;
    }
    forall i, j | 0 <= i < j < |ys| ensures !Overlap(ys[i], ys[j]) {
      assert ys[i] in xs && ys[j] in xs;
      var p :| 0 <= p < |xs| && xs[p] == ys[i];
      var q :| 0 <= q < |xs| && xs[q] == ys[j];
      assert p < q || q < p;
    }
  }

  datatype TeacherRef = TeacherRef(id: nat, owner: nat)

  datatype Error = TeacherNotFound | NotOwner | Invalid(why: Verdict)

  /** The availability service over its two tables: slug to teacher, teacher to weekly rows. */
  class Service {
    var teachers: map<string, TeacherRef>
    var weekly: map<nat, seq<AvailabilitySpan>>

    ghost predicate Valid()
      reads this
    {
      forall id :: id in weekly ==> Canonical(weekly[id])
    }

    ghost function Stored(id: nat): seq<AvailabilitySpan>
      reads this
    {
      if id in weekly then weekly[id] else []
    }

    constructor (teachers: map<string, TeacherRef>)
      ensures Valid() && this.teachers == teachers && weekly == map[]
    {
      this.teachers := teachers;
      weekly := map[];
    }

    /** `GetBySlug`: the stored rows, sorted again on the way out. */
    method GetBySlug(slug: string) returns (r: Result<seq<AvailabilitySpan>, Error>)
      requires Valid()
      ensures r == if slug !in teachers then Err(TeacherNotFound) else Ok(Stored(teachers[slug].id))
    {
      if slug !in teachers {
        return Err(TeacherNotFound);
      }
      var id := teachers[slug].id;
      var rows := if id in weekly then weekly[id] else [];
      OrdersAreOrders();
      CanonicalIsSorted(rows);
      var sorted := Sorting.Sort(CanonicalLess, rows);
      AcceptableComparable(rows);
      Sorting.OrderedDistinct(CanonicalLess, rows, sorted);
      Sorting.PermutationFacts(rows, sorted);
      Sorting.StrictlyOrderedUnique(CanonicalLess, rows, sorted);
      return Ok(sorted);
    }

    /** `Replace`: ownership, validation, then the whole set is swapped for its sorted form. */
    method Replace(slug: string, actor: nat, slots: seq<AvailabilitySpan>)
      returns (r: Result<seq<AvailabilitySpan>, Error>)
      requires Valid()
      modifies this`weekly
      ensures Valid()
      ensures slug !in teachers ==> r == Err(TeacherNotFound)
      ensures slug in teachers && (teachers[slug].owner == NIL_ID || teachers[slug].owner != actor) ==>
                r == Err(NotOwner)
      ensures slug in teachers && teachers[slug].owner != NIL_ID && teachers[slug].owner == actor ==>
                if Acceptable(slots)
                then r.Ok? && Canonical(r.value) && multiset(r.value) == multiset(slots)
                     && weekly == old(weekly)[teachers[slug].id := r.value]
                else r.Err? && r.error.Invalid? && Explains(slots, r.error.why)
      ensures r.Err? ==> weekly == old(weekly)
    {
      if slug !in teachers {
        return Err(TeacherNotFound);
      }
      var ref := teachers[slug];
      if ref.owner == NIL_ID || ref.owner != actor {
        return Err(NotOwner);
      }
      var v := ValidateSlots(slots);
      if !v.Accepted? {
        return Err(Invalid(v));
      }
      OrdersAreOrders();
      var sorted := Sorting.Sort(CanonicalLess, slots);
      SortedIsCanonical(slots, sorted);
      weekly := weekly[ref.id := sorted];
      return Ok(sorted);
    }
  }
}
