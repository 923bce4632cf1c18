/**
  The immutable cashflow record, its comparison operator, and the stable
  sort that `Entity.add_cashflow` applies after every insertion.
*/
module Cashflows {
  import opened Wrappers
  import opened Dates

  /** One dated cash event of one entity; the date may be missing. */
  datatype Cashflow = Cashflow(
    date: Option<Date>,
    inflow: real,
    outflow: real,
    value: real,
    entityName: string)

  /** `Cashflow.__gt__` exactly as written: an undated cashflow is never greater,
      and a dated one is greater than an undated one. */
  predicate Gt(self: Cashflow, other: Cashflow) {
    if self.date.None? then false
    else if other.date.None? then true
    else Before(other.date.value, self.date.value)
  }

  /** The `<` that Python's `sorted` uses. The dataclass defines no `__lt__`,
      so `a < b` falls back to the reflected `b.__gt__(a)`. */
  predicate Lt(a: Cashflow, b: Cashflow) {
    Gt(b, a)
  }

  /** The effective order: undated cashflows are least, dated ones go by date. */
  lemma LtByDate(a: Cashflow, b: Cashflow)
    ensures Lt(a, b) <==> b.date.Some? && (a.date.None? || Before(a.date.value, b.date.value))
    ensures a.date.None? && b.date.Some? ==> Lt(a, b) && !Lt(b, a)
  {
  }

  /** `Lt` is a strict weak order, the condition under which a sort by `<` is well defined. */
  lemma LtIsStrictWeakOrder(a: Cashflow, b: Cashflow, c: Cashflow)
    ensures !Lt(a, a)
    ensures Lt(a, b) ==> !Lt(b, a)
    ensures Lt(a, b) && Lt(b, c) ==> Lt(a, c)
    ensures !Lt(a, b) && !Lt(b, c) ==> !Lt(a, c)
  {
  }

  /** Ascending: no later element is less than an earlier one. */
  predicate Sorted(s: seq<Cashflow>) {
    forall i, j :: 0 <= i < j < |s| ==> !Lt(s[j], s[i])
  }

  /** Inserts `x` before the first element greater than it. */
  function Insert(s: seq<Cashflow>, x: Cashflow): (r: seq<Cashflow>)
    ensures |r| == |s| + 1
    ensures multiset(r) == multiset(s) + multiset{x}
  {
    if s == [] then [x]
    else if Lt(x, s[0]) then [x] + s
    else assert s == [s[0]] + s[1..]; [s[0]] + Insert(s[1..], x)
  }

  /** Python's `sorted` under `Lt`: a stable insertion sort. A stable sort by a
      strict weak order has exactly one possible result, so any stable sort
      (Timsort included) returns this sequence. */
  function StableSort(s: seq<Cashflow>): (r: seq<Cashflow>)
    ensures |r| == |s|
    ensures multiset(r) == multiset(s)
  {
    if s == [] then []
    else
      assert s == s[..|s| - 1] + [s[|s| - 1]];
      Insert(StableSort(s[..|s| - 1]), s[|s| - 1])
  }

  /** How many leading elements of `s` are not greater than `x`. */
  function InsertionPoint(s: seq<Cashflow>, x: Cashflow): (k: nat)
    ensures k <= |s|
  {
    if s == [] || Lt(x, s[0]) then 0 else 1 + InsertionPoint(s[1..], x)
  }

  lemma {:induction false} InsertSorted(s: seq<Cashflow>, x: Cashflow)
    requires Sorted(s)
    ensures Sorted(Insert(s, x))
  {
    if s != [] && !Lt(x, s[0]) {
      var t := Insert(s[1..], x);
      InsertSorted(s[1..], x);
      var r := [s[0]] + t;
      forall i, j | 0 <= i < j < |r| ensures !Lt(r[j], r[i]) {
        if i == 0 {
          assert r[j] in multiset(t);
          assert r[j] in multiset(s[1..]) || r[j] == x;
          if r[j] != x {
            var m :| 0 <= m < |s[1..]| && s[1..][m] == r[j];
            assert s[m + 1] == r[j];
          }
        } else {
          assert r[j] == t[j - 1] && r[i] == t[i - 1];
        }
      }
    }
  }

  /** The insertion lands after the leading elements not greater than `x`. */
  lemma {:induction false} InsertSplits(s: seq<Cashflow>, x: Cashflow)
    ensures var k := InsertionPoint(s, x);
      && Insert(s, x) == s[..k] + [x] + s[k..]
      && (forall i :: 0 <= i < k ==> !Lt(x, s[i]))
  {
    if s != [] && !Lt(x, s[0]) {
      InsertSplits(s[1..], x);
      var k := InsertionPoint(s, x);
      assert s[..k] == [s[0]] + s[1..][..k - 1];
      assert s[k..] == s[1..][k - 1..];
    }
  }

  /** In a sorted list every element from the insertion point on is greater than `x`. */
  lemma {:induction false} InsertionPointFirstGreater(s: seq<Cashflow>, x: Cashflow)
    requires Sorted(s)
    ensures forall i :: InsertionPoint(s, x) <= i < |s| ==> Lt(x, s[i])
  {
    if s == [] {
    } else if Lt(x, s[0]) {
      forall i | 0 <= i < |s| ensures Lt(x, s[i]) {
        LtIsStrictWeakOrder(x, s[0], s[i]);
      }
    } else {
      InsertionPointFirstGreater(s[1..], x);
      forall i | InsertionPoint(s, x) <= i < |s| ensures Lt(x, s[i]) {
        assert s[i] == s[1..][i - 1];
      }
    }
  }

  lemma {:induction false} InsertAtEnd(s: seq<Cashflow>, x: Cashflow)
    requires forall i :: 0 <= i < |s| ==> !Lt(x, s[i])
    ensures Insert(s, x) == s + [x]
  {
    if s != [] {
      InsertAtEnd(s[1..], x);
      assert [s[0]] + (s[1..] + [x]) == s + [x];
    }
  }

  /** The result of the sort is ascending. */
  lemma {:induction false} StableSortSorted(s: seq<Cashflow>)
    ensures Sorted(StableSort(s))
  {
    if s != [] {
      StableSortSorted(s[..|s| - 1]);
      InsertSorted(StableSort(s[..|s| - 1]), s[|s| - 1]);
    }
  }

  /** Sorting an already sorted list changes nothing. */
  lemma {:induction false} StableSortOfSorted(s: seq<Cashflow>)
    requires Sorted(s)
    ensures StableSort(s) == s
  {
    if s != [] {
      var init := s[..|s| - 1];
      assert Sorted(init);
      StableSortOfSorted(init);
      InsertAtEnd(init, s[|s| - 1]);
      assert init + [s[|s| - 1]] == s;
    }
  }

  /** Re-sorting after each append is the same as sorting everything once. */
  lemma {:induction false} SortAppend(a: seq<Cashflow>, x: Cashflow)
    ensures StableSort(StableSort(a) + [x]) == StableSort(a + [x])
    ensures StableSort(a + [x]) == Insert(StableSort(a), x)
  {
    var b := StableSort(a);
    assert (a + [x])[..|a|] == a;
    assert (b + [x])[..|b|] == b;
    StableSortSorted(a);
    StableSortOfSorted(b);
  }

  /** In a sorted list the undated cashflows come first and the dated ones
      are in non-decreasing date order. */
  lemma SortedByDate(s: seq<Cashflow>, i: int, j: int)
    requires Sorted(s) && 0 <= i < j < |s|
    ensures s[j].date.None? ==> s[i].date.None?
    ensures s[i].date.Some? && s[j].date.Some? ==> !Before(s[j].date.value, s[i].date.value)
  {
  }

  /** The first ordering scenario of the model tests: dated cashflows come
      out in ascending date order. */
  lemma SortByDateExample()
    ensures
      var c1 := Cashflow(Some(Date(2022, 1, 1)), 1000.0, 0.0, 0.0, "test entity");
      var c2 := Cashflow(Some(Date(2023, 2, 1)), 0.0, 100.0, 1000.0, "test entity");
      var c3 := Cashflow(Some(Date(1998, 3, 1)), 0.0, 100.0, 1000.0, "test entity");
      StableSort([c1, c2, c3]) == [c3, c1, c2]
  {
    var c1 := Cashflow(Some(Date(2022, 1, 1)), 1000.0, 0.0, 0.0, "test entity");
    var c2 := Cashflow(Some(Date(2023, 2, 1)), 0.0, 100.0, 1000.0, "test entity");
    var c3 := Cashflow(Some(Date(1998, 3, 1)), 0.0, 100.0, 1000.0, "test entity");
    assert [c1, c2, c3][..2] == [c1, c2];
    assert [c1, c2][..1] == [c1];
    assert StableSort([c1]) == Insert([], c1) == [c1];
    assert !Lt(c2, c1);
    assert StableSort([c1, c2]) == Insert([c1], c2) == [c1, c2] by {
      assert [c1][1..] == [];
    }
    assert Lt(c3, [c1, c2][0]);
    assert Insert([c1, c2], c3) == [c3] + [c1, c2] == [c3, c1, c2];
  }

  /** The second ordering scenario: an undated cashflow comes first whatever
      the input order. */
  lemma SortUndatedExample()
    ensures
      var c1 := Cashflow(None, 1000.0, 0.0, 0.0, "test entity");
      var c2 := Cashflow(Some(Date(2023, 2, 1)), 0.0, 100.0, 1000.0, "test entity");
      StableSort([c1, c2]) == [c1, c2] && StableSort([c2, c1]) == [c1, c2]
  {
    var c1 := Cashflow(None, 1000.0, 0.0, 0.0, "test entity");
    var c2 := Cashflow(Some(Date(2023, 2, 1)), 0.0, 100.0, 1000.0, "test entity");
    assert [c1, c2][..1] == [c1];
    assert [c2, c1][..1] == [c2];
    assert StableSort([c1]) == [c1];
    assert StableSort([c2]) == [c2];
    assert [c1][1..] == [];
    assert StableSort([c1, c2]) == Insert([c1], c2) == [c1, c2];
    assert StableSort([c2, c1]) == Insert([c2], c1) == [c1, c2];
  }
}
