/** In-memory tables: a table is the sequence of its rows in insertion
    (rowid) order. The SQL statements of the data-access layer become
    filters, appends and reversals of these sequences. */
module Tables {

  /** A row of one of the per-case tables: its AUTOINCREMENT id, its
      `case_id` and the remaining columns. */
  datatype Row<D> = Row(id: nat, caseId: int, data: D)

  /** The elements of `xs` that satisfy `keep`, in their order (`WHERE`). */
  function Filter<T>(xs: seq<T>, keep: T -> bool): (r: seq<T>)
    ensures |r| <= |xs|
    ensures forall i :: 0 <= i < |r| ==> r[i] in xs && keep(r[i])
    ensures forall i :: 0 <= i < |xs| && keep(xs[i]) ==> xs[i] in r
  {
    if |xs| == 0 then []
    else Filter(xs[..|xs| - 1], keep) + (if keep(xs[|xs| - 1]) then [xs[|xs| - 1]] else [])
  }

  /** Every earlier element stands in `rel` to every later one. */
  ghost predicate Pairwise<T>(xs: seq<T>, rel: (T, T) -> bool) {
    forall i, j {:trigger rel(xs[i], xs[j])} :: 0 <= i < j < |xs| ==> rel(xs[i], xs[j])
  }

  lemma PairwiseSnoc<T>(xs: seq<T>, x: T, rel: (T, T) -> bool)
    requires Pairwise(xs, rel)
    requires forall y :: y in xs ==> rel(y, x)
    ensures Pairwise(xs + [x], rel)
  {
    var ys := xs + [x];
    forall i, j | 0 <= i < j < |ys| ensures rel(ys[i], ys[j]) {
      assert ys[i] == xs[i] && ys[i] in xs;
      if j < |xs| { assert ys[j] == xs[j]; }
    }
  }

  /** Deleting rows keeps the relative order of the others. */
  lemma {:induction false} FilterPairwise<T>(xs: seq<T>, keep: T -> bool, rel: (T, T) -> bool)
    requires Pairwise(xs, rel)
    ensures Pairwise(Filter(xs, keep), rel)
  {
    if |xs| > 0 {
      var init, last := xs[..|xs| - 1], xs[|xs| - 1];
      assert Pairwise(init, rel) by {
        forall i, j | 0 <= i < j < |init| ensures rel(init[i], init[j]) {
          assert init[i] == xs[i] && init[j] == xs[j];
        }
      }
      FilterPairwise(init, keep, rel);
      if keep(last) {
        forall y | y in Filter(init, keep) ensures rel(y, last) {
          var k :| 0 <= k < |init| && init[k] == y;
          assert xs[k] == y;
        }
        PairwiseSnoc(Filter(init, keep), last, rel);
      }
    }
  }

  lemma FilterSnoc<T>(xs: seq<T>, x: T, keep: T -> bool)
    ensures Filter(xs + [x], keep) == Filter(xs, keep) + (if keep(x) then [x] else [])
  {
    assert (xs + [x])[..|xs|] == xs;
  }

  lemma {:induction false} FilterConcat<T>(xs: seq<T>, ys: seq<T>, keep: T -> bool)
    ensures Filter(xs + ys, keep) == Filter(xs, keep) + Filter(ys, keep)
    decreases |ys|
  {
    if |ys| > 0 {
      var init, last := ys[..|ys| - 1], ys[|ys| - 1];
      assert ys == init + [last];
      assert xs + ys == (xs + init) + [last];
      FilterSnoc(xs + init, last, keep);
      FilterSnoc(init, last, keep);
      FilterConcat(xs, init, keep);
      var tail := if keep(last) then [last] else [];
      calc {
        Filter(xs + ys, keep);
        Filter(xs + init, keep) + tail;
        (Filter(xs, keep) + Filter(init, keep)) + tail;
        Filter(xs, keep) + (Filter(init, keep) + tail);
        Filter(xs, keep) + Filter(ys, keep);
      }
    } else {
      assert xs + ys == xs;
    }
  }

  lemma FilterNone<T>(xs: seq<T>, keep: T -> bool)
    requires forall x :: x in xs ==> !keep(x)
    ensures Filter(xs, keep) == []
  {
  }

  /** A filter that keeps nothing of what survives another filter. */
  lemma FilterDisjoint<T>(xs: seq<T>, k1: T -> bool, k2: T -> bool)
    requires forall x :: x in xs && k1(x) ==> !k2(x)
    ensures Filter(Filter(xs, k1), k2) == []
  {
    var f1 := Filter(xs, k1);
    forall x | x in f1 ensures !k2(x) {
      var i :| 0 <= i < |f1| && f1[i] == x;
    }
    FilterNone(f1, k2);
  }

  /** A filter whose rows all survive another filter sees the same rows. */
  lemma {:induction false} FilterWeaker<T>(xs: seq<T>, k1: T -> bool, k2: T -> bool)
    requires forall x :: x in xs && k2(x) ==> k1(x)
    ensures Filter(Filter(xs, k1), k2) == Filter(xs, k2)
  {
    if |xs| > 0 {
      var init, last := xs[..|xs| - 1], xs[|xs| - 1];
      assert xs == init + [last];
      FilterWeaker(init, k1, k2);
      var f1 := Filter(init, k1);
      if k1(last) {
        FilterSnoc(f1, last, k2);
      } else {
        assert Filter(xs, k1) == f1 + [] == f1;
      }
    }
  }

  /** Consecutive fresh ids from `first` on for rows inserted one by one
      into case `c`; AUTOINCREMENT hands out one id per successful insert. */
  function Stamp<D>(first: nat, c: int, ds: seq<D>): (r: seq<Row<D>>)
    ensures |r| == |ds|
    ensures forall i :: 0 <= i < |ds| ==> r[i] == Row(first + i, c, ds[i])
  {
    if |ds| == 0 then []
    else Stamp(first, c, ds[..|ds| - 1]) + [Row(first + |ds| - 1, c, ds[|ds| - 1])]
  }

  lemma StampSnoc<D>(first: nat, c: int, ds: seq<D>, d: D)
    ensures Stamp(first, c, ds + [d]) == Stamp(first, c, ds) + [Row(first + |ds|, c, d)]
  {
    assert (ds + [d])[..|ds|] == ds;
  }

  /** `SELECT ... WHERE case_id = c`. */
  function RowsOf<D>(rows: seq<Row<D>>, c: int): seq<Row<D>> {
    Filter(rows, (r: Row<D>) => r.caseId == c)
  }

  /** The rows left by `DELETE ... WHERE case_id = c`. */
  function WithoutCase<D>(rows: seq<Row<D>>, c: int): seq<Row<D>> {
    Filter(rows, (r: Row<D>) => r.caseId != c)
  }

  /** After the case's rows are deleted it has none, and every other case
      keeps exactly the rows it had. */
  lemma WithoutCaseRows<D>(rows: seq<Row<D>>, c: int, other: int)
    ensures RowsOf(WithoutCase(rows, c), c) == []
    ensures other != c ==> RowsOf(WithoutCase(rows, c), other) == RowsOf(rows, other)
  {
    FilterDisjoint(rows, (r: Row<D>) => r.caseId != c, (r: Row<D>) => r.caseId == c);
    if other != c {
      FilterWeaker(rows, (r: Row<D>) => r.caseId != c, (r: Row<D>) => r.caseId == other);
    }
  }

  /** Rows inserted for case `c` are seen by `c` and by no other case. */
  lemma RowsOfAppend<D>(rows: seq<Row<D>>, first: nat, c: int, ds: seq<D>, other: int)
    ensures RowsOf(rows + Stamp(first, c, ds), c) == RowsOf(rows, c) + Stamp(first, c, ds)
    ensures other != c ==> RowsOf(rows + Stamp(first, c, ds), other) == RowsOf(rows, other)
  {
    var keep := (r: Row<D>) => r.caseId == c;
    var added := Stamp(first, c, ds);
    FilterConcat(rows, added, keep);
    FilterAll(added, keep);
    if other != c {
      var keepOther := (r: Row<D>) => r.caseId == other;
      FilterConcat(rows, added, keepOther);
      FilterNone(added, keepOther);
    }
  }

  lemma {:induction false} FilterAll<T>(xs: seq<T>, keep: T -> bool)
    requires forall x :: x in xs ==> keep(x)
    ensures Filter(xs, keep) == xs
  {
    if |xs| > 0 {
      assert xs == xs[..|xs| - 1] + [xs[|xs| - 1]];
      FilterAll(xs[..|xs| - 1], keep);
    }
  }

  /** `xs` in the opposite order: `ORDER BY` a strictly increasing column `DESC`. */
  function Reverse<T>(xs: seq<T>): (r: seq<T>)
    ensures |r| == |xs|
    ensures forall i :: 0 <= i < |xs| ==> r[i] == xs[|xs| - 1 - i]
  {
    if |xs| == 0 then [] else [xs[|xs| - 1]] + Reverse(xs[..|xs| - 1])
  }

  lemma ReversePairwise<T>(xs: seq<T>, rel: (T, T) -> bool, flipped: (T, T) -> bool)
    requires Pairwise(xs, rel)
    requires forall a, b :: rel(a, b) ==> flipped(b, a)
    ensures Pairwise(Reverse(xs), flipped)
  {
    var r := Reverse(xs);
    forall i, j | 0 <= i < j < |r| ensures flipped(r[i], r[j]) {
      assert rel(xs[|xs| - 1 - j], xs[|xs| - 1 - i]);
    }
  }

  predicate IdLess<D>(a: Row<D>, b: Row<D>) { a.id < b.id }

  predicate CaseDiffers<D>(a: Row<D>, b: Row<D>) { a.caseId != b.caseId }

  /** Every id lies in `[1, next)`. */
  ghost predicate IdsBelow<D>(rows: seq<Row<D>>, next: nat) {
    forall r :: r in rows ==> 1 <= r.id < next
  }

  /** The table invariant AUTOINCREMENT keeps: ids increase in rowid order
      and lie below the next id to be handed out. */
  ghost predicate FreshIds<D>(rows: seq<Row<D>>, next: nat) {
    Pairwise(rows, IdLess) && IdsBelow(rows, next)
  }

  lemma FreshIdsFilter<D>(rows: seq<Row<D>>, next: nat, keep: Row<D> -> bool)
    requires FreshIds(rows, next)
    ensures FreshIds(Filter(rows, keep), next)
  {
    FilterPairwise(rows, keep, IdLess);
  }

  lemma FreshIdsSnoc<D>(rows: seq<Row<D>>, next: nat, r: Row<D>)
    requires FreshIds(rows, next) && r.id == next && next >= 1
    ensures FreshIds(rows + [r], next + 1)
  {
    PairwiseSnoc(rows, r, IdLess);
  }

  /** Ids increase in rowid order, so two positions with one id are one. */
  lemma IdsIncrease<D>(rows: seq<Row<D>>, i: nat, j: nat)
    requires Pairwise(rows, IdLess) && i < |rows| && j < |rows|
    ensures rows[i].id == rows[j].id ==> i == j
  {
    if i < j {
      assert IdLess(rows[i], rows[j]);
    } else if j < i {
      assert IdLess(rows[j], rows[i]);
    }
  }

  /** No two rows share an id. */
  lemma IdsUnique<D>(rows: seq<Row<D>>, p: Row<D>, q: Row<D>)
    requires Pairwise(rows, IdLess) && p in rows && q in rows && p.id == q.id
    ensures p == q
  {
    var i :| 0 <= i < |rows| && rows[i] == p;
    var j :| 0 <= j < |rows| && rows[j] == q;
    IdsIncrease(rows, i, j);
  }
}
