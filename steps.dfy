/** What one element of a model reply does to the database when a handler's
    `for` loop reaches it: it raises before any write (a missing key, an
    element that is not a dict), it is skipped, or it is handed to one DAO
    call. The loop stops at the first element that raises or whose DAO call
    raises, and every write before it stays committed. */
module Steps {
  import opened Tables

  datatype Step<D> = Raise | Skip | Save(record: D)

  /** The loop gets past this element. */
  predicate Passes<D>(st: Step<D>, storable: D -> bool) {
    st.Skip? || (st.Save? && storable(st.record))
  }

  /** The loop gets past the first `k` elements. */
  ghost predicate PassesBefore<D>(steps: seq<Step<D>>, storable: D -> bool, k: int) {
    forall j :: 0 <= j < k && j < |steps| ==> Passes(steps[j], storable)
  }

  ghost predicate AllPass<D>(steps: seq<Step<D>>, storable: D -> bool) {
    PassesBefore(steps, storable, |steps|)
  }

  /** The loop stops at element `k`. */
  ghost predicate StopsAt<D>(steps: seq<Step<D>>, storable: D -> bool, k: int) {
    0 <= k < |steps| && PassesBefore(steps, storable, k) && !Passes(steps[k], storable)
  }

  /** The records handed to the DAO by the first `k` elements, in order. */
  function SavedBefore<D>(steps: seq<Step<D>>, k: nat): (r: seq<D>)
    requires k <= |steps|
    ensures |r| <= k
  {
    if k == 0 then []
    else SavedBefore(steps, k - 1) + (if steps[k - 1].Save? then [steps[k - 1].record] else [])
  }

  /** The element at `i` passes, so the first `i + 1` do. */
  lemma PassesNext<D>(steps: seq<Step<D>>, storable: D -> bool, i: nat)
    requires i < |steps| && PassesBefore(steps, storable, i) && Passes(steps[i], storable)
    ensures PassesBefore(steps, storable, i + 1)
  {
  }

  /** The element at `i` adds its record, if it saves one. */
  lemma SavedNext<D>(steps: seq<Step<D>>, i: nat)
    requires i < |steps|
    ensures steps[i].Save? ==> SavedBefore(steps, i + 1) == SavedBefore(steps, i) + [steps[i].record]
    ensures !steps[i].Save? ==> SavedBefore(steps, i + 1) == SavedBefore(steps, i)
  {
  }

  function Saves<D>(steps: seq<Step<D>>): seq<D> {
    SavedBefore(steps, |steps|)
  }

  /** Either every element passes or there is exactly one element where the
      loop stops. */
  lemma StopsSomewhere<D>(steps: seq<Step<D>>, storable: D -> bool)
    ensures AllPass(steps, storable) || exists k :: StopsAt(steps, storable, k)
    ensures forall k, k' :: StopsAt(steps, storable, k) && StopsAt(steps, storable, k') ==> k == k'
    ensures AllPass(steps, storable) ==> forall k :: !StopsAt(steps, storable, k)
  {
    if !AllPass(steps, storable) {
      var k :| 0 <= k < |steps| && !Passes(steps[k], storable);
      FirstFailure(steps, storable, k);
    }
  }

  lemma {:induction false} FirstFailure<D>(steps: seq<Step<D>>, storable: D -> bool, k: int)
    requires 0 <= k < |steps| && !Passes(steps[k], storable)
    ensures exists j :: StopsAt(steps, storable, j)
    decreases k
  {
    if PassesBefore(steps, storable, k) {
      assert StopsAt(steps, storable, k);
    } else {
      var j :| 0 <= j < k && !Passes(steps[j], storable);
      FirstFailure(steps, storable, j);
    }
  }

  /** Every record handed to the DAO comes from an element that saves it. */
  lemma {:induction false} SavedFrom<D>(steps: seq<Step<D>>, k: nat)
    requires k <= |steps|
    ensures forall d :: d in SavedBefore(steps, k) ==> exists i :: 0 <= i < k && steps[i] == Save(d)
  {
    if k > 0 {
      SavedFrom(steps, k - 1);
    }
  }

  /** The saves of a concatenation are the saves of the first part followed
      by those of a prefix of the second. */
  lemma {:induction false} SavedBeforeConcat<D>(xs: seq<Step<D>>, ys: seq<Step<D>>, k: nat)
    requires k <= |ys|
    ensures SavedBefore(xs + ys, |xs| + k) == Saves(xs) + SavedBefore(ys, k)
  {
    if k == 0 {
      SavedBeforeSame(xs + ys, xs, |xs|);
    } else {
      SavedBeforeConcat(xs, ys, k - 1);
      assert (xs + ys)[|xs| + k - 1] == ys[k - 1];
    }
  }

  /** Only the first `k` elements count. */
  lemma {:induction false} SavedBeforeSame<D>(xs: seq<Step<D>>, ys: seq<Step<D>>, k: nat)
    requires k <= |xs| && k <= |ys| && xs[..k] == ys[..k]
    ensures SavedBefore(xs, k) == SavedBefore(ys, k)
  {
    if k > 0 {
      assert xs[..k - 1] == xs[..k][..k - 1] == ys[..k][..k - 1] == ys[..k - 1];
      assert xs[k - 1] == xs[..k][k - 1];
      SavedBeforeSame(xs, ys, k - 1);
    }
  }

  /** Where every element saves, the first `k` elements save one record
      each, in order. */
  lemma {:induction false} SavedEach<D>(steps: seq<Step<D>>, k: nat)
    requires k <= |steps| && forall i :: 0 <= i < k ==> steps[i].Save?
    ensures |SavedBefore(steps, k)| == k
    ensures forall i :: 0 <= i < k ==> steps[i] == Save(SavedBefore(steps, k)[i])
  {
    if k > 0 {
      SavedEach(steps, k - 1);
      assert SavedBefore(steps, k) == SavedBefore(steps, k - 1) + [steps[k - 1].record];
    }
  }

  /** A run that gets through steps none of which skips saves at each one. */
  lemma PassesAllSave<D>(steps: seq<Step<D>>, storable: D -> bool)
    requires AllPass(steps, storable) && forall i :: 0 <= i < |steps| ==> !steps[i].Skip?
    ensures forall i :: 0 <= i < |steps| ==> steps[i].Save?
  {
  }

  /** A run through two lists one after the other gets through each. */
  lemma AllPassSplit<D>(xs: seq<Step<D>>, ys: seq<Step<D>>, storable: D -> bool)
    requires AllPass(xs + ys, storable)
    ensures AllPass(xs, storable) && AllPass(ys, storable)
  {
    forall k | 0 <= k < |xs| ensures Passes(xs[k], storable) {
      assert (xs + ys)[k] == xs[k];
    }
    forall k | 0 <= k < |ys| ensures Passes(ys[k], storable) {
      assert (xs + ys)[|xs| + k] == ys[k];
    }
  }

  /** Concatenation of the step lists of nested loops. */
  function Flatten<D>(parts: seq<seq<Step<D>>>): seq<Step<D>> {
    if |parts| == 0 then [] else Flatten(parts[..|parts| - 1]) + parts[|parts| - 1]
  }

  lemma FlattenSnoc<D>(parts: seq<seq<Step<D>>>, p: seq<Step<D>>)
    ensures Flatten(parts + [p]) == Flatten(parts) + p
  {
    assert (parts + [p])[..|parts|] == parts;
  }

  lemma {:induction false} FlattenConcat<D>(xs: seq<seq<Step<D>>>, ys: seq<seq<Step<D>>>)
    ensures Flatten(xs + ys) == Flatten(xs) + Flatten(ys)
    decreases |ys|
  {
    if |ys| == 0 {
      assert xs + ys == xs;
    } else {
      var init, last := ys[..|ys| - 1], ys[|ys| - 1];
      assert xs + ys == (xs + init) + [last];
      assert ys == init + [last];
      FlattenSnoc(xs + init, last);
      FlattenConcat(xs, init);
      FlattenSnoc(init, last);
    }
  }

  /** The inner loop's part `i` occupies the positions after the parts
      before it. */
  lemma FlattenNext<D>(parts: seq<seq<Step<D>>>, i: nat)
    requires i < |parts|
    ensures Flatten(parts[..i + 1]) == Flatten(parts[..i]) + parts[i]
  {
    assert parts[..i + 1] == parts[..i] + [parts[i]];
    FlattenSnoc(parts[..i], parts[i]);
  }

  /** Element `j` of part `i` is the element of the concatenation at the
      position after the parts before it. */
  lemma FlattenAt<D>(parts: seq<seq<Step<D>>>, i: nat, j: nat)
    requires i < |parts| && j < |parts[i]|
    ensures |Flatten(parts[..i])| + j < |Flatten(parts)|
    ensures Flatten(parts)[|Flatten(parts[..i])| + j] == parts[i][j]
  {
    assert parts == parts[..i + 1] + parts[i + 1..];
    FlattenConcat(parts[..i + 1], parts[i + 1..]);
    FlattenNext(parts, i);
  }

  /** The loop over `steps` appended rows of case `c` to a table that held
      `before` and now holds `after`: all of them, or those before the
      element where it stopped; `ok` says whether it got through. */
  ghost predicate RunAppends<D>(steps: seq<Step<D>>, storable: D -> bool, ok: bool,
                                before: seq<Row<D>>, after: seq<Row<D>>, first: nat, c: int)
  {
    (ok <==> AllPass(steps, storable)) &&
    (ok ==> after == before + Stamp(first, c, Saves(steps))) &&
    (!ok ==> exists k :: StopsAt(steps, storable, k) && after == before + Stamp(first, c, SavedBefore(steps, k)))
  }

  /** The first `i` elements passed: the counter moved past the rows they
      added, and the table holds those rows after `before`. */
  ghost predicate AppendedSoFar<D>(steps: seq<Step<D>>, storable: D -> bool, i: nat, before: seq<Row<D>>,
                                   rows: seq<Row<D>>, first: nat, next: int, c: int)
  {
    i <= |steps| && PassesBefore(steps, storable, i) && next == first + |SavedBefore(steps, i)| &&
    rows == before + Stamp(first, c, SavedBefore(steps, i))
  }

  /** One turn of a loop that appends: the element at `i` either passes,
      adding its record's row when it saves one, or stops the loop. */
  lemma AppendAdvance<D>(steps: seq<Step<D>>, storable: D -> bool, i: nat, before: seq<Row<D>>,
                         rows: seq<Row<D>>, rows': seq<Row<D>>, first: nat, id: int, id': int, c: int, go: bool)
    requires i < |steps| && AppendedSoFar(steps, storable, i, before, rows, first, id, c)
    requires go <==> Passes(steps[i], storable)
    requires rows' == if go && steps[i].Save? then rows + [Row(id, c, steps[i].record)] else rows
    requires id' == if go && steps[i].Save? then id + 1 else id
    ensures go ==> AppendedSoFar(steps, storable, i + 1, before, rows', first, id', c)
    ensures !go ==> RunAppends(steps, storable, false, before, rows', first, c)
  {
    var saved := SavedBefore(steps, i);
    if !go {
      assert StopsAt(steps, storable, i);
    } else if steps[i].Save? {
      StampSnoc(first, c, saved, steps[i].record);
    }
  }

  /** A run through every element after the case's rows were deleted: the
      case holds exactly the new rows, and other cases what they held. */
  lemma ClearedAppends<D>(steps: seq<Step<D>>, storable: D -> bool, before: seq<Row<D>>, after: seq<Row<D>>,
                          first: nat, c: int, other: int)
    requires RunAppends(steps, storable, true, WithoutCase(before, c), after, first, c)
    ensures RowsOf(after, c) == Stamp(first, c, Saves(steps))
    ensures other != c ==> RowsOf(after, other) == RowsOf(before, other)
  {
    var cleared, added := WithoutCase(before, c), Stamp(first, c, Saves(steps));
    RowsOfAppend(cleared, first, c, Saves(steps), other);
    WithoutCaseRows(before, c, other);
    assert RowsOf(cleared, c) + added == added;
  }

  /** The loop got through every element. */
  lemma DoneSteps<D>(steps: seq<Step<D>>, storable: D -> bool, before: seq<Row<D>>, rows: seq<Row<D>>,
                     first: nat, next: int, c: int)
    requires AppendedSoFar(steps, storable, |steps|, before, rows, first, next, c)
    ensures RunAppends(steps, storable, true, before, rows, first, c)
  {
  }
}
