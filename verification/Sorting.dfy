/**
  What the Go code relies on from `sort.Slice`: the result is a permutation of the
  input with no inversion.  `sort.Slice` is not stable, so nothing is promised
  about elements that compare equal; callers below use no more than that.
*/
module Sorting {

  /** `less` is usable as a sort order: asymmetric, with "not after" transitive. */
  ghost predicate StrictWeakOrder<T(!new)>(less: (T, T) -> bool) {
    && (forall x, y :: less(x, y) ==> !less(y, x))
    && (forall x, y, z :: !less(y, x) && !less(z, y) ==> !less(z, x))
  }

  ghost predicate Ordered<T(!new)>(less: (T, T) -> bool, xs: seq<T>) {
    forall i, j :: 0 <= i < j < |xs| ==> !less(xs[j], xs[i])
  }

  /** Every earlier element is strictly before every later one. */
  ghost predicate StrictlyOrdered<T(!new)>(less: (T, T) -> bool, xs: seq<T>) {
    forall i, j :: 0 <= i < j < |xs| ==> less(xs[i], xs[j])
  }

  method InsertOrdered<T(!new)>(less: (T, T) -> bool, xs: seq<T>, x: T) returns (ys: seq<T>)
    requires StrictWeakOrder(less)
    requires Ordered(less, xs)
    ensures Ordered(less, ys)
    ensures multiset(ys) == multiset(xs) + multiset{x}
  {
    var k := |xs|;
    while 0 < k && less(x, xs[k - 1])
      invariant 0 <= k <= |xs|
      invariant forall j :: k <= j < |xs| ==> less(x, xs[j])
    {
      k := k - 1;
    }
    InsertKeepsOrder(less, xs, x, k);
    ys := xs[..k] + [x] + xs[k..];
    assert xs == xs[..k] + xs[k..];
  }

  lemma InsertKeepsOrder<T(!new)>(less: (T, T) -> bool, xs: seq<T>, x: T, k: nat)
    requires StrictWeakOrder(less) && Ordered(less, xs)
    requires k <= |xs|
    requires forall j :: k <= j < |xs| ==> less(x, xs[j])
    requires k > 0 ==> !less(x, xs[k - 1])
    ensures Ordered(less, xs[..k] + [x] + xs[k..])
  {
  }

  method Sort<T(!new)>(less: (T, T) -> bool, xs: seq<T>) returns (ys: seq<T>)
    requires StrictWeakOrder(less)
    ensures Ordered(less, ys)
    ensures multiset(ys) == multiset(xs)
  {
    ys := [];
    for i := 0 to |xs|
      invariant Ordered(less, ys)
      invariant multiset(ys) == multiset(xs[..i])
    {
      ys := InsertOrdered(less, ys, xs[i]);
      assert xs[..i + 1] == xs[..i] + [xs[i]];
    }
    assert xs[..|xs|] == xs;
  }

  /** A permutation has the same elements and the same length. */
  lemma PermutationFacts<T>(xs: seq<T>, ys: seq<T>)
    requires multiset(xs) == multiset(ys)
    ensures |xs| == |ys|
    ensures forall x :: x in xs <==> x in ys
  {
    assert |multiset(xs)| == |xs| && |multiset(ys)| == |ys|;
    forall x ensures x in xs <==> x in ys {
      assert x in xs <==> x in multiset(xs);
      assert x in ys <==> x in multiset(ys);
    }
  }

  /** Two strictly ordered lists with the same elements are the same list. */
  lemma {:induction false} StrictlyOrderedUnique<T(!new)>(less: (T, T) -> bool, xs: seq<T>, ys: seq<T>)
    requires StrictWeakOrder(less)
    requires StrictlyOrdered(less, xs) && StrictlyOrdered(less, ys)
    requires forall x :: x in xs <==> x in ys
    ensures xs == ys
  {
    if xs == [] {
      NoMembersNoElements(ys);
    } else {
      assert xs[0] in xs;
      assert ys != [];
      assert ys[0] in ys;
      assert xs[0] == ys[0] by {
        var i :| 0 <= i < |ys| && ys[i] == xs[0];
        var j :| 0 <= j < |xs| && xs[j] == ys[0];
        if i > 0 && j > 0 {
          assert false;
        }
      }
      forall x
        ensures x in xs[1..] <==> x in ys[1..]
      {
        TailMembers(less, xs, x);
        TailMembers(less, ys, x);
      }
      StrictlyOrderedUnique(less, xs[1..], ys[1..]);
      assert xs == [xs[0]] + xs[1..] && ys == [ys[0]] + ys[1..];
    }
  }

  lemma NoMembersNoElements<T>(ys: seq<T>)
    ensures (forall x :: x !in ys) ==> ys == []
  {
    if |ys| > 0 { assert ys[0] in ys; }
  }

  lemma TailMembers<T(!new)>(less: (T, T) -> bool, xs: seq<T>, x: T)
    requires StrictWeakOrder(less) && StrictlyOrdered(less, xs) && xs != []
    ensures x in xs[1..] <==> x in xs && x != xs[0]
  {
  }

  /** Sorting a list that is already strictly ordered changes nothing. */
  lemma SortedAlready<T(!new)>(less: (T, T) -> bool, xs: seq<T>, ys: seq<T>)
    requires StrictWeakOrder(less)
    requires StrictlyOrdered(less, xs)
    requires Ordered(less, ys) && multiset(xs) == multiset(ys)
    requires forall x, y :: x in xs && y in xs && x != y ==> less(x, y) || less(y, x)
    ensures ys == xs
  {
    PermutationFacts(xs, ys);
    OrderedDistinct(less, xs, ys);
    StrictlyOrderedUnique(less, xs, ys);
  }

  /** An ordered permutation of pairwise comparable, duplicate-free elements is strictly ordered. */
  lemma OrderedDistinct<T(!new)>(less: (T, T) -> bool, xs: seq<T>, ys: seq<T>)
    requires StrictWeakOrder(less)
    requires multiset(xs) == multiset(ys)
    requires forall i, j :: 0 <= i < j < |xs| ==> less(xs[i], xs[j]) || less(xs[j], xs[i])
    requires Ordered(less, ys)
    ensures StrictlyOrdered(less, ys)
  {
    PermutationFacts(xs, ys);
    forall i, j | 0 <= i < j < |ys|
      ensures less(ys[i], ys[j])
    {
      if ys[i] == ys[j] {
        TwiceInMultiset(ys, i, j);
        TwiceInSeq(xs, ys[i]);
        assert false;
      } else {
        assert ys[i] in xs && ys[j] in xs;
        var p :| 0 <= p < |xs| && xs[p] == ys[i];
        var q :| 0 <= q < |xs| && xs[q] == ys[j];
        assert p < q || q < p;
      }
    }
  }

  predicate NoRepeats<T(==)>(xs: seq<T>) {
    forall i, j :: 0 <= i < j < |xs| ==> xs[i] != xs[j]
  }

  lemma NoRepeatsPermutation<T>(xs: seq<T>, ys: seq<T>)
    requires multiset(xs) == multiset(ys) && NoRepeats(xs)
    ensures NoRepeats(ys)
  {
    forall i, j | 0 <= i < j < |ys| ensures ys[i] != ys[j] {
      if ys[i] == ys[j] {
        TwiceInMultiset(ys, i, j);
        TwiceInSeq(xs, ys[i]);
        assert false;
      }
    }
  }

  lemma TwiceInMultiset<T>(ys: seq<T>, i: nat, j: nat)
    requires i < j < |ys| && ys[i] == ys[j]
    ensures multiset(ys)[ys[i]] >= 2
  {
    assert ys == ys[..i] + [ys[i]] + ys[i + 1..j] + [ys[j]] + ys[j + 1..];
  }

  lemma {:induction false} TwiceInSeq<T>(xs: seq<T>, x: T)
    requires multiset(xs)[x] >= 2
    ensures exists p, q :: 0 <= p < q < |xs| && xs[p] == x && xs[q] == x
  {
    assert xs == [xs[0]] + xs[1..];
    if xs[0] == x {
      assert multiset(xs[1..])[x] >= 1;
      assert x in xs[1..];
      var q :| 0 <= q < |xs[1..]| && xs[1..][q] == x;
      assert xs[0] == x && xs[q + 1] == x;
    } else {
      TwiceInSeq(xs[1..], x);
      var p, q :| 0 <= p < q < |xs[1..]| && xs[1..][p] == x && xs[1..][q] == x;
      assert xs[p + 1] == x && xs[q + 1] == x;
    }
  }
}
