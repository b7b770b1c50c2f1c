/**
  Finite sums and counts over map-shaped tables, for the SQL aggregates
  (`sum(...)`, `count(*)`) the Go code relies on.
*/
module Sums {

  lemma EmptyOrInhabited(s: set<int>)
    ensures s == {} || exists d :: d in s
  {
    if forall d :: d !in s {
      assert s == {};
    }
  }

  lemma EmptyOrHasKey(m: map<int, int>)
    ensures m == map[] || exists k :: k in m
  {
    if forall k :: k !in m {
      assert m == map[];
    }
  }

  /** The sum of a table's values, in any order. */
  ghost function Sum(m: map<int, int>): int
    decreases |m|
  {
    if m == map[] then 0
    else
      EmptyOrHasKey(m);
      var k :| k in m;
      assert |m - {k}| < |m| by { Smaller(m, k); }
      m[k] + Sum(m - {k})
  }

  lemma Smaller(m: map<int, int>, k: int)
    requires k in m
    ensures |m - {k}| == |m| - 1
  {
  }

  /** Any entry can be taken out first. */
  lemma {:induction false} SumTakeOut(m: map<int, int>, k: int)
    requires k in m
    ensures Sum(m) == m[k] + Sum(m - {k})
    decreases |m|
  {
    EmptyOrHasKey(m);
    var j :| j in m && Sum(m) == m[j] + Sum(m - {j});
    if j != k {
      Smaller(m, j);
      Smaller(m, k);
      SumTakeOut(m - {j}, k);
      SumTakeOut(m - {k}, j);
      assert m - {j} - {k} == m - {k} - {j};
    }
  }

  lemma SumPut(m: map<int, int>, k: int, v: int)
    ensures Sum(m[k := v]) == Sum(m) + v - (if k in m then m[k] else 0)
  {
    SumTakeOut(m[k := v], k);
    if k in m {
      SumTakeOut(m, k);
      assert m[k := v] - {k} == m - {k};
    } else {
      assert m[k := v] - {k} == m;
    }
  }

  lemma RemoveFromUnion(a: map<int, int>, b: map<int, int>, k: int)
    requires a.Keys !! b.Keys && k in b
    ensures k in a + b && (a + b)[k] == b[k]
    ensures (a + b) - {k} == a + (b - {k})
  {
  }

  lemma {:induction false} SumDisjoint(a: map<int, int>, b: map<int, int>)
    requires a.Keys !! b.Keys
    ensures Sum(a + b) == Sum(a) + Sum(b)
    decreases |b|
  {
    if b == map[] {
      assert a + b == a;
    } else {
      EmptyOrHasKey(b);
      var k :| k in b;
      Smaller(b, k);
      SumDisjoint(a, b - {k});
      SumTakeOut(b, k);
      RemoveFromUnion(a, b, k);
      SumTakeOut(a + b, k);
    }
  }

  /** The entries of `m` in group `g`. */
  ghost function InGroup(m: map<int, int>, group: map<int, int>, g: int): map<int, int>
    requires m.Keys <= group.Keys
  {
    map k | k in m && group[k] == g :: m[k]
  }

  /** Adding up the groups gives the whole; groups without entries contribute nothing. */
  lemma {:induction false} SumByGroup(m: map<int, int>, group: map<int, int>, parts: map<int, int>)
    requires m.Keys <= group.Keys
    requires forall k :: k in m ==> group[k] in parts
    requires forall g :: g in parts ==> parts[g] == Sum(InGroup(m, group, g))
    ensures Sum(parts) == Sum(m)
    decreases |parts|
  {
    if parts == map[] {
      EmptyOrHasKey(m);
    } else {
      EmptyOrHasKey(parts);
      var g :| g in parts;
      var rest := OutsideGroup(m, group, g);
      Smaller(parts, g);
      forall h | h in parts - {g} ensures (parts - {g})[h] == Sum(InGroup(rest, group, h)) {
        OtherGroups(m, group, g, h);
      }
      SumByGroup(rest, group, parts - {g});
      SumTakeOut(parts, g);
      SplitGroup(m, group, g);
    }
  }

  ghost function OutsideGroup(m: map<int, int>, group: map<int, int>, g: int): map<int, int>
    requires m.Keys <= group.Keys
  {
    map k | k in m && group[k] != g :: m[k]
  }

  lemma OtherGroups(m: map<int, int>, group: map<int, int>, g: int, h: int)
    requires m.Keys <= group.Keys && g != h
    ensures InGroup(OutsideGroup(m, group, g), group, h) == InGroup(m, group, h)
  {
  }

  lemma SplitGroup(m: map<int, int>, group: map<int, int>, g: int)
    requires m.Keys <= group.Keys
    ensures Sum(m) == Sum(InGroup(m, group, g)) + Sum(OutsideGroup(m, group, g))
  {
    hide Sum, InGroup, OutsideGroup;
    GroupAndRest(m, group, g);
    SumDisjoint(InGroup(m, group, g), OutsideGroup(m, group, g));
  }

  lemma GroupAndRest(m: map<int, int>, group: map<int, int>, g: int)
    requires m.Keys <= group.Keys
    ensures InGroup(m, group, g).Keys !! OutsideGroup(m, group, g).Keys
    ensures InGroup(m, group, g) + OutsideGroup(m, group, g) == m
  {
  }
}
