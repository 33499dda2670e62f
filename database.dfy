/** The SQLite data-access layer (database.py) as one object holding the
    eight tables as sequences of rows, an AUTOINCREMENT counter and a
    clock standing for `datetime.now()`. Each DAO function opens its own
    connection and commits on its own; a statement that raises leaves the
    transaction uncommitted, so the failing call changes nothing. */
module Database {
  import opened Wrappers
  import opened Json
  import opened Tables

  /** A row of `cases`. The `status` column is never written and is not modelled. */
  datatype Case = Case(id: nat, identifier: Json, description: Json, createdAt: nat)

  datatype InputData = InputData(content: Json, inputType: Json, metadata: JsonText, createdAt: nat)

  datatype PatternData = PatternData(
    description: Json, recurrence: Json, persistence: Json, pressureContext: Json, contradictions: Json)
  {
    predicate Storable() {
      Bindable(description) && Bindable(recurrence) && Bindable(persistence) &&
      Bindable(pressureContext) && Bindable(contradictions)
    }
  }

  datatype AssignmentData = AssignmentData(patternId: Json, axisName: Json, justification: Json) {
    predicate Storable() { Bindable(patternId) && Bindable(axisName) && Bindable(justification) }
  }

  /** `axis_name` and `status` are NOT NULL columns. */
  datatype AxisStateData = AxisStateData(axisName: Json, status: Json, value: Json, justification: Json) {
    predicate Storable() {
      Bindable(axisName) && Bindable(status) && Bindable(value) && Bindable(justification) &&
      axisName != JNull && status != JNull
    }
  }

  /** `description` and `type` are NOT NULL columns; `axes_involved` holds `json.dumps` text. */
  datatype TensionData = TensionData(description: Json, tensionType: Json, axesInvolved: JsonText, severity: Json) {
    predicate Storable() {
      Bindable(description) && Bindable(tensionType) && Bindable(severity) &&
      description != JNull && tensionType != JNull
    }
  }

  /** `score` and `status` are NOT NULL columns. */
  datatype ThresholdData = ThresholdData(score: Json, status: Json, reasoning: Json, createdAt: nat) {
    predicate Storable() {
      Bindable(score) && Bindable(status) && Bindable(reasoning) && score != JNull && status != JNull
    }
  }

  /** `archetype_name` is a NOT NULL column; `key_traits` holds `json.dumps` text. */
  datatype ArchetypeData = ArchetypeData(name: Json, description: Json, fitScore: Json, keyTraits: JsonText, createdAt: nat) {
    predicate Storable() { Bindable(name) && Bindable(description) && Bindable(fitScore) && name != JNull }
  }

  /** A row of the `get_axis_assignments` join: the assignment's columns plus
      `p.description AS pattern_description`. */
  datatype JoinedAssignment = JoinedAssignment(row: Row<AssignmentData>, patternDescription: Json)

  /** What a reader of the database can see: every table's rows. */
  datatype Contents = Contents(
    cases: seq<Case>,
    inputs: seq<Row<InputData>>,
    patterns: seq<Row<PatternData>>,
    assignments: seq<Row<AssignmentData>>,
    axisStates: seq<Row<AxisStateData>>,
    tensions: seq<Row<TensionData>>,
    thresholds: seq<Row<ThresholdData>>,
    archetypes: seq<Row<ArchetypeData>>)
  {
    // readers: each is the SELECT of its DAO function

    function AllCases(): seq<Case> { Reverse(cases) }
    function GetCase(id: int): Option<Case> { FindCase(cases, id) }
    function CaseInputs(c: int): seq<Row<InputData>> { CaseInputsOf(inputs, c) }
    function CasePatterns(c: int): seq<Row<PatternData>> { RowsOf(patterns, c) }
    function AxisAssignments(c: int): seq<JoinedAssignment> { AxisAssignmentsOf(assignments, patterns, c) }
    function AxisStates(c: int): seq<Row<AxisStateData>> { RowsOf(axisStates, c) }
    function CaseTensions(c: int): seq<Row<TensionData>> { RowsOf(tensions, c) }
    function ThresholdEvaluation(c: int): Option<Row<ThresholdData>> { FirstRow(thresholds, c) }
    function ArchetypeAssignment(c: int): Option<Row<ArchetypeData>> { FirstRow(archetypes, c) }
  }

  const EmptyContents := Contents([], [], [], [], [], [], [], [])

  // ---------------------------------------------------------------- cases

  predicate CaseIdLess(a: Case, b: Case) { a.id < b.id }
  predicate CaseOlder(a: Case, b: Case) { a.createdAt < b.createdAt }
  predicate CaseNewer(a: Case, b: Case) { a.createdAt > b.createdAt }

  ghost predicate CasesValid(cases: seq<Case>, nextId: nat, clock: nat) {
    Pairwise(cases, CaseIdLess) && Pairwise(cases, CaseOlder) &&
    forall k :: k in cases ==> 1 <= k.id < nextId && k.createdAt < clock
  }

  /** `SELECT * FROM cases WHERE id = ?` with `fetchone`. */
  function FindCase(cases: seq<Case>, id: int): (r: Option<Case>)
    ensures r.None? <==> forall k :: k in cases ==> k.id != id
    ensures r.Some? ==> r.value in cases && r.value.id == id
  {
    if |cases| == 0 then None
    else if cases[0].id == id then Some(cases[0])
    else FindCase(cases[1..], id)
  }

  /** The rows left by `DELETE FROM cases WHERE id = ?`. */
  function DropCase(cases: seq<Case>, id: int): seq<Case> {
    Filter(cases, (k: Case) => k.id != id)
  }

  /** `get_all_cases`: `ORDER BY created_at DESC` is the reverse of insertion
      order, because the clock only moves forward. */
  lemma {:induction false} AllCasesNewestFirst(cases: seq<Case>, nextId: nat, clock: nat)
    requires CasesValid(cases, nextId, clock)
    ensures Pairwise(Reverse(cases), CaseNewer)
    ensures forall k :: k in Reverse(cases) <==> k in cases
  {
    ReversePairwise(cases, CaseOlder, CaseNewer);
    var r := Reverse(cases);
    forall k | k in cases ensures k in r {
      var i :| 0 <= i < |cases| && cases[i] == k;
      assert r[|cases| - 1 - i] == k;
    }
  }

  // ------------------------------------------------------- per-case tables

  predicate InputOlder(a: Row<InputData>, b: Row<InputData>) { a.data.createdAt < b.data.createdAt }
  predicate InputNewer(a: Row<InputData>, b: Row<InputData>) { a.data.createdAt > b.data.createdAt }

  /** What `add_input` stores for `metadata`: `json.dumps(metadata) if metadata
      else "{}"`, and `"{}"` is what `json.dumps({})` writes. */
  function MetadataText(metadata: Json): JsonText {
    Dumped(if Truthy(metadata) then metadata else JObject([]))
  }

  /** Reading the metadata back gives the value passed, except that a falsy
      one (None, {}, [], "", 0, False) reads back as an empty object. */
  lemma MetadataRoundTrip(metadata: Json, fallback: Json)
    ensures Truthy(metadata) ==> LoadsOr(MetadataText(metadata), fallback) == metadata
    ensures !Truthy(metadata) ==> LoadsOr(MetadataText(metadata), fallback) == JObject([])
  {
  }

  /** `get_case_inputs`: the case's inputs, `ORDER BY created_at DESC`. */
  function CaseInputsOf(inputs: seq<Row<InputData>>, c: int): seq<Row<InputData>> {
    Reverse(RowsOf(inputs, c))
  }

  lemma CaseInputsNewestFirst(inputs: seq<Row<InputData>>, c: int)
    requires Pairwise(inputs, InputOlder)
    ensures Pairwise(CaseInputsOf(inputs, c), InputNewer)
    ensures forall r :: r in CaseInputsOf(inputs, c) <==> r in inputs && r.caseId == c
  {
    var own := RowsOf(inputs, c);
    FilterPairwise(inputs, (r: Row<InputData>) => r.caseId == c, InputOlder);
    ReversePairwise(own, InputOlder, InputNewer);
    var rev := Reverse(own);
    forall r | r in rev ensures r in inputs && r.caseId == c {
      var i :| 0 <= i < |rev| && rev[i] == r;
      assert own[|own| - 1 - i] == r;
    }
    forall r | r in inputs && r.caseId == c ensures r in rev {
      var i :| 0 <= i < |inputs| && inputs[i] == r;
      var j :| 0 <= j < |own| && own[j] == r;
      assert rev[|own| - 1 - j] == r;
    }
  }

  /** A pattern row whose id equals the assignment's `pattern_id` (`a.pattern_id = p.id`). */
  predicate PatternIdMatches(p: Row<PatternData>, patternId: Json) {
    patternId == JNumber(p.id as real)
  }

  /** Two patterns a `pattern_id` names have the same id. */
  lemma PatternIdMatchesSame(p: Row<PatternData>, q: Row<PatternData>, patternId: Json)
    requires PatternIdMatches(p, patternId) && PatternIdMatches(q, patternId)
    ensures p.id == q.id
  {
  }

  /** The pattern a `pattern_id` names, if any. */
  function FindPattern(patterns: seq<Row<PatternData>>, patternId: Json): (r: Option<Row<PatternData>>)
    ensures r.None? <==> forall p :: p in patterns ==> !PatternIdMatches(p, patternId)
    ensures r.Some? ==> r.value in patterns && PatternIdMatches(r.value, patternId)
  {
    if |patterns| == 0 then None
    else if PatternIdMatches(patterns[0], patternId) then Some(patterns[0])
    else FindPattern(patterns[1..], patternId)
  }

  /** The inner join of `get_axis_assignments`, over the given assignments. */
  function Join(assigns: seq<Row<AssignmentData>>, patterns: seq<Row<PatternData>>): (r: seq<JoinedAssignment>)
    ensures |r| <= |assigns|
    ensures forall j :: j in r ==>
      j.row in assigns &&
      exists p :: p in patterns && PatternIdMatches(p, j.row.data.patternId) && j.patternDescription == p.data.description
    ensures forall a, p :: a in assigns && p in patterns && PatternIdMatches(p, a.data.patternId) ==>
      exists j :: j in r && j.row == a
  {
    if |assigns| == 0 then []
    else
      var a := assigns[|assigns| - 1];
      var init := Join(assigns[..|assigns| - 1], patterns);
      assert forall x :: x in assigns ==> x in assigns[..|assigns| - 1] || x == a;
      match FindPattern(patterns, a.data.patternId)
      case Some(p) =>
        var r := init + [JoinedAssignment(a, p.data.description)];
        assert JoinedAssignment(a, p.data.description) in r;
        r
      case None => init
  }

  /** `get_axis_assignments(c)`: exactly the assignments of `c` whose
      `pattern_id` names an existing pattern (of any case), each with that
      pattern's description. */
  function AxisAssignmentsOf(assignments: seq<Row<AssignmentData>>, patterns: seq<Row<PatternData>>, c: int): seq<JoinedAssignment> {
    Join(RowsOf(assignments, c), patterns)
  }

  lemma AxisAssignmentsJoin(assignments: seq<Row<AssignmentData>>, patterns: seq<Row<PatternData>>, c: int)
    ensures forall j :: j in AxisAssignmentsOf(assignments, patterns, c) ==>
      j.row in assignments && j.row.caseId == c &&
      exists p :: p in patterns && PatternIdMatches(p, j.row.data.patternId) && j.patternDescription == p.data.description
    ensures forall a, p :: a in assignments && a.caseId == c && p in patterns && PatternIdMatches(p, a.data.patternId) ==>
      exists j :: j in AxisAssignmentsOf(assignments, patterns, c) && j.row == a
  {
    var own := RowsOf(assignments, c);
    forall a | a in own ensures a in assignments && a.caseId == c {
      var i :| 0 <= i < |own| && own[i] == a;
    }
    forall a, p | a in assignments && a.caseId == c && p in patterns && PatternIdMatches(p, a.data.patternId)
      ensures exists j :: j in AxisAssignmentsOf(assignments, patterns, c) && j.row == a
    {
      var i :| 0 <= i < |assignments| && assignments[i] == a;
      assert a in own;
      var joined := Join(own, patterns);
      assert exists j :: j in joined && j.row == a;
      assert joined == AxisAssignmentsOf(assignments, patterns, c);
    }
  }

  // ------------------------------------------------------------ axis states

  predicate SameAxisKey(s: Row<AxisStateData>, c: int, axis: Json) {
    s.caseId == c && s.data.axisName == axis
  }

  predicate AxisKeyDiffers(a: Row<AxisStateData>, b: Row<AxisStateData>) {
    !SameAxisKey(a, b.caseId, b.data.axisName)
  }

  /** The rows of one (case, axis) pair. */
  function KeyRows(rows: seq<Row<AxisStateData>>, c: int, axis: Json): seq<Row<AxisStateData>> {
    Filter(rows, (s: Row<AxisStateData>) => SameAxisKey(s, c, axis))
  }

  /** `save_axis_state`: `DELETE ... WHERE case_id = ? AND axis_name = ?` then `INSERT`. */
  function ReplaceAxisState(rows: seq<Row<AxisStateData>>, r: Row<AxisStateData>): seq<Row<AxisStateData>> {
    Filter(rows, (s: Row<AxisStateData>) => !SameAxisKey(s, r.caseId, r.data.axisName)) + [r]
  }

  /** After the replacement the pair (case, axis) has exactly the new row and
      every other pair keeps its rows. */
  lemma ReplaceAxisStateSpec(rows: seq<Row<AxisStateData>>, r: Row<AxisStateData>, c: int, axis: Json)
    ensures KeyRows(ReplaceAxisState(rows, r), r.caseId, r.data.axisName) == [r]
    ensures !SameAxisKey(r, c, axis) ==> KeyRows(ReplaceAxisState(rows, r), c, axis) == KeyRows(rows, c, axis)
  {
    var drop := (s: Row<AxisStateData>) => !SameAxisKey(s, r.caseId, r.data.axisName);
    var rest := Filter(rows, drop);
    var own := (s: Row<AxisStateData>) => SameAxisKey(s, r.caseId, r.data.axisName);
    FilterSnoc(rest, r, own);
    FilterDisjoint(rows, drop, own);
    if !SameAxisKey(r, c, axis) {
      var other := (s: Row<AxisStateData>) => SameAxisKey(s, c, axis);
      FilterSnoc(rest, r, other);
      FilterWeaker(rows, drop, other);
    }
  }

  lemma ReplaceAxisStateUnique(rows: seq<Row<AxisStateData>>, r: Row<AxisStateData>)
    requires Pairwise(rows, AxisKeyDiffers)
    ensures Pairwise(ReplaceAxisState(rows, r), AxisKeyDiffers)
  {
    var drop := (s: Row<AxisStateData>) => !SameAxisKey(s, r.caseId, r.data.axisName);
    var rest := Filter(rows, drop);
    FilterPairwise(rows, drop, AxisKeyDiffers);
    forall y | y in rest ensures AxisKeyDiffers(y, r) {
      var i :| 0 <= i < |rest| && rest[i] == y;
    }
    PairwiseSnoc(rest, r, AxisKeyDiffers);
  }

  /** A run of `save_axis_state` calls, one per row of `news`, in order. */
  function ReplaceAll(rows: seq<Row<AxisStateData>>, news: seq<Row<AxisStateData>>): seq<Row<AxisStateData>>
    decreases |news|
  {
    if |news| == 0 then rows
    else ReplaceAxisState(ReplaceAll(rows, news[..|news| - 1]), news[|news| - 1])
  }

  lemma ReplaceAllSnoc(rows: seq<Row<AxisStateData>>, news: seq<Row<AxisStateData>>, r: Row<AxisStateData>)
    ensures ReplaceAll(rows, news + [r]) == ReplaceAxisState(ReplaceAll(rows, news), r)
  {
    assert (news + [r])[..|news|] == news;
  }

  /** The last row of `news` for the pair (case, axis). */
  function LastWithKey(news: seq<Row<AxisStateData>>, c: int, axis: Json): (r: Option<Row<AxisStateData>>)
    ensures r.Some? ==> r.value in news && SameAxisKey(r.value, c, axis)
    ensures r.None? <==> forall n :: n in news ==> !SameAxisKey(n, c, axis)
  {
    if |news| == 0 then None
    else if SameAxisKey(news[|news| - 1], c, axis) then Some(news[|news| - 1])
    else
      assert forall n :: n in news ==> n in news[..|news| - 1] || n == news[|news| - 1];
      LastWithKey(news[..|news| - 1], c, axis)
  }

  /** After a run of saves, each (case, axis) pair holds only the last state
      saved for it, or its old rows when the run saved none for it. */
  lemma {:induction false} ReplaceAllSpec(rows: seq<Row<AxisStateData>>, news: seq<Row<AxisStateData>>, c: int, axis: Json)
    ensures KeyRows(ReplaceAll(rows, news), c, axis) ==
      match LastWithKey(news, c, axis)
      case Some(n) => [n]
      case None => KeyRows(rows, c, axis)
    decreases |news|
  {
    if |news| > 0 {
      var init, last := news[..|news| - 1], news[|news| - 1];
      ReplaceAllSpec(rows, init, c, axis);
      ReplaceAxisStateSpec(ReplaceAll(rows, init), last, c, axis);
    }
  }

  // --------------------------------------------- threshold and archetype

  /** `DELETE ... WHERE case_id = ?` then `INSERT`: one row per case. */
  function ReplaceForCase<D>(rows: seq<Row<D>>, r: Row<D>): seq<Row<D>> {
    WithoutCase(rows, r.caseId) + [r]
  }

  /** `fetchone` on `SELECT * ... WHERE case_id = ?`. */
  function FirstRow<D>(rows: seq<Row<D>>, c: int): (r: Option<Row<D>>)
    ensures r.None? <==> RowsOf(rows, c) == []
    ensures r.Some? ==> r.value == RowsOf(rows, c)[0]
  {
    var own := RowsOf(rows, c);
    if |own| == 0 then None else Some(own[0])
  }

  /** After the replacement the case has exactly the new row, which the
      getter returns, and every other case keeps its rows. */
  lemma ReplaceForCaseSpec<D>(rows: seq<Row<D>>, r: Row<D>, other: int)
    ensures RowsOf(ReplaceForCase(rows, r), r.caseId) == [r]
    ensures FirstRow(ReplaceForCase(rows, r), r.caseId) == Some(r)
    ensures other != r.caseId ==> RowsOf(ReplaceForCase(rows, r), other) == RowsOf(rows, other)
  {
    var rest := WithoutCase(rows, r.caseId);
    WithoutCaseRows(rows, r.caseId, other);
    FilterSnoc(rest, r, (s: Row<D>) => s.caseId == r.caseId);
    FilterSnoc(rest, r, (s: Row<D>) => s.caseId == other);
  }

  lemma ReplaceForCaseUnique<D>(rows: seq<Row<D>>, r: Row<D>)
    requires Pairwise(rows, CaseDiffers)
    ensures Pairwise(ReplaceForCase(rows, r), CaseDiffers)
  {
    var rest := WithoutCase(rows, r.caseId);
    FilterPairwise(rows, (s: Row<D>) => s.caseId != r.caseId, CaseDiffers);
    forall y | y in rest ensures CaseDiffers(y, r) {
      var i :| 0 <= i < |rest| && rest[i] == y;
    }
    PairwiseSnoc(rest, r, CaseDiffers);
  }

  // ------------------------------------------------------------ delete_case

  datatype TableName =
    InputsTable | PatternsTable | AssignmentsTable | AxisStatesTable |
    TensionsTable | ThresholdsTable | ArchetypesTable

  /** The tables `delete_case` clears, in its order. */
  const DependentTables: seq<TableName> :=
    [InputsTable, PatternsTable, AssignmentsTable, AxisStatesTable, TensionsTable, ThresholdsTable, ArchetypesTable]

  /** `DELETE FROM <t> WHERE case_id = ?`. */
  function DeleteRows(db: Contents, t: TableName, c: int): Contents {
    match t
    case InputsTable => db.(inputs := WithoutCase(db.inputs, c))
    case PatternsTable => db.(patterns := WithoutCase(db.patterns, c))
    case AssignmentsTable => db.(assignments := WithoutCase(db.assignments, c))
    case AxisStatesTable => db.(axisStates := WithoutCase(db.axisStates, c))
    case TensionsTable => db.(tensions := WithoutCase(db.tensions, c))
    case ThresholdsTable => db.(thresholds := WithoutCase(db.thresholds, c))
    case ArchetypesTable => db.(archetypes := WithoutCase(db.archetypes, c))
  }

  function DeleteAll(db: Contents, ts: seq<TableName>, c: int): Contents
    decreases |ts|
  {
    if |ts| == 0 then db else DeleteAll(DeleteRows(db, ts[0], c), ts[1..], c)
  }

  /** The state `delete_case(c)` commits. */
  function CascadeDelete(db: Contents, c: int): Contents {
    DeleteAll(db, DependentTables, c).(cases := DropCase(db.cases, c))
  }

  lemma CascadeDeleteTables(db: Contents, c: int)
    ensures CascadeDelete(db, c) == Contents(
      DropCase(db.cases, c), WithoutCase(db.inputs, c), WithoutCase(db.patterns, c),
      WithoutCase(db.assignments, c), WithoutCase(db.axisStates, c), WithoutCase(db.tensions, c),
      WithoutCase(db.thresholds, c), WithoutCase(db.archetypes, c))
  {
    var ts := DependentTables;
    assert ts[1..] == [PatternsTable, AssignmentsTable, AxisStatesTable, TensionsTable, ThresholdsTable, ArchetypesTable];
    assert ts[1..][1..] == [AssignmentsTable, AxisStatesTable, TensionsTable, ThresholdsTable, ArchetypesTable];
    assert ts[1..][1..][1..] == [AxisStatesTable, TensionsTable, ThresholdsTable, ArchetypesTable];
    assert ts[1..][1..][1..][1..] == [TensionsTable, ThresholdsTable, ArchetypesTable];
    assert ts[1..][1..][1..][1..][1..] == [ThresholdsTable, ArchetypesTable];
    assert ts[1..][1..][1..][1..][1..][1..] == [ArchetypesTable];
  }

  /** `delete_case(c)` leaves no row of `c` in any of the eight tables, and
      every other case keeps exactly the rows it had. */
  lemma CascadeDeleteSpec(db: Contents, c: int, other: int)
    ensures var after := CascadeDelete(db, c);
      FindCase(after.cases, c).None? &&
      RowsOf(after.inputs, c) == [] && RowsOf(after.patterns, c) == [] &&
      RowsOf(after.assignments, c) == [] && RowsOf(after.axisStates, c) == [] &&
      RowsOf(after.tensions, c) == [] && RowsOf(after.thresholds, c) == [] &&
      RowsOf(after.archetypes, c) == []
    ensures var after := CascadeDelete(db, c);
      other != c ==>
        FindCase(after.cases, other) == FindCase(db.cases, other) &&
        RowsOf(after.inputs, other) == RowsOf(db.inputs, other) &&
        RowsOf(after.patterns, other) == RowsOf(db.patterns, other) &&
        RowsOf(after.assignments, other) == RowsOf(db.assignments, other) &&
        RowsOf(after.axisStates, other) == RowsOf(db.axisStates, other) &&
        RowsOf(after.tensions, other) == RowsOf(db.tensions, other) &&
        RowsOf(after.thresholds, other) == RowsOf(db.thresholds, other) &&
        RowsOf(after.archetypes, other) == RowsOf(db.archetypes, other)
  {
    CascadeDeleteTables(db, c);
    WithoutCaseRows(db.inputs, c, other);
    WithoutCaseRows(db.patterns, c, other);
    WithoutCaseRows(db.assignments, c, other);
    WithoutCaseRows(db.axisStates, c, other);
    WithoutCaseRows(db.tensions, c, other);
    WithoutCaseRows(db.thresholds, c, other);
    WithoutCaseRows(db.archetypes, c, other);
    var kept := DropCase(db.cases, c);
    forall k | k in kept ensures k.id != c && k in db.cases {
      var i :| 0 <= i < |kept| && kept[i] == k;
    }
    if other != c {
      DropCaseFind(db.cases, c, other);
    }
  }

  lemma {:induction false} DropCaseFind(cases: seq<Case>, c: int, other: int)
    requires other != c
    ensures FindCase(DropCase(cases, c), other) == FindCase(cases, other)
  {
    if |cases| > 0 {
      var init, last := cases[..|cases| - 1], cases[|cases| - 1];
      assert cases == init + [last];
      DropCaseFind(init, c, other);
      FindCaseSnoc(init, last, other);
      var keep := (k: Case) => k.id != c;
      FilterSnoc(init, last, keep);
      if keep(last) {
        FindCaseSnoc(DropCase(init, c), last, other);
      } else {
        assert DropCase(cases, c) == DropCase(init, c) + [] == DropCase(init, c);
      }
    }
  }

  lemma {:induction false} FindCaseSnoc(cases: seq<Case>, k: Case, id: int)
    ensures FindCase(cases + [k], id) == if FindCase(cases, id).Some? then FindCase(cases, id)
                                         else if k.id == id then Some(k) else None
  {
    if |cases| > 0 {
      assert (cases + [k])[1..] == cases[1..] + [k];
      FindCaseSnoc(cases[1..], k, id);
    }
  }

  // ------------------------------------------------------------ invariant

  predicate StampedBefore(rows: seq<Row<InputData>>, clock: nat) {
    forall r :: r in rows ==> r.data.createdAt < clock
  }

  /** What holds of the tables between any two DAO calls: ids are unique,
      increasing in insertion order and below the counter; timestamps are
      increasing in insertion order and below the clock; at most one axis
      state per (case, axis), one threshold evaluation and one archetype
      assignment per case. */
  ghost predicate TablesValid(db: Contents, nextId: nat, clock: nat) {
    var idsFresh :=
      FreshIds(db.inputs, nextId) && FreshIds(db.patterns, nextId) && FreshIds(db.assignments, nextId) &&
      FreshIds(db.axisStates, nextId) && FreshIds(db.tensions, nextId) &&
      FreshIds(db.thresholds, nextId) && FreshIds(db.archetypes, nextId);
    var inputsOrdered := Pairwise(db.inputs, InputOlder) && StampedBefore(db.inputs, clock);
    var keysUnique :=
      Pairwise(db.axisStates, AxisKeyDiffers) && Pairwise(db.thresholds, CaseDiffers) &&
      Pairwise(db.archetypes, CaseDiffers);
    var casesValid := nextId >= 1 && CasesValid(db.cases, nextId, clock);
    casesValid && idsFresh && inputsOrdered && keysUnique
  }

  lemma TablesValidLater(db: Contents, nextId: nat, clock: nat, nextId': nat, clock': nat)
    requires TablesValid(db, nextId, clock) && nextId <= nextId' && clock <= clock'
    ensures TablesValid(db, nextId', clock')
  {
  }

  lemma DeleteRowsValid(db: Contents, t: TableName, c: int, nextId: nat, clock: nat)
    requires TablesValid(db, nextId, clock)
    ensures TablesValid(DeleteRows(db, t, c), nextId, clock)
  {
    var keep := (r: Row<InputData>) => r.caseId != c;
    match t
    case InputsTable =>
      FreshIdsFilter(db.inputs, nextId, keep);
      FilterPairwise(db.inputs, keep, InputOlder);
      var rest := WithoutCase(db.inputs, c);
      forall r | r in rest ensures r.data.createdAt < clock {
        var i :| 0 <= i < |rest| && rest[i] == r;
      }
    case PatternsTable => FreshIdsFilter(db.patterns, nextId, (r: Row<PatternData>) => r.caseId != c);
    case AssignmentsTable => FreshIdsFilter(db.assignments, nextId, (r: Row<AssignmentData>) => r.caseId != c);
    case AxisStatesTable =>
      FreshIdsFilter(db.axisStates, nextId, (r: Row<AxisStateData>) => r.caseId != c);
      FilterPairwise(db.axisStates, (r: Row<AxisStateData>) => r.caseId != c, AxisKeyDiffers);
    case TensionsTable => FreshIdsFilter(db.tensions, nextId, (r: Row<TensionData>) => r.caseId != c);
    case ThresholdsTable =>
      FreshIdsFilter(db.thresholds, nextId, (r: Row<ThresholdData>) => r.caseId != c);
      FilterPairwise(db.thresholds, (r: Row<ThresholdData>) => r.caseId != c, CaseDiffers);
    case ArchetypesTable =>
      FreshIdsFilter(db.archetypes, nextId, (r: Row<ArchetypeData>) => r.caseId != c);
      FilterPairwise(db.archetypes, (r: Row<ArchetypeData>) => r.caseId != c, CaseDiffers);
  }

  lemma DropCaseValid(db: Contents, c: int, nextId: nat, clock: nat)
    requires TablesValid(db, nextId, clock)
    ensures TablesValid(db.(cases := DropCase(db.cases, c)), nextId, clock)
  {
    var keep := (k: Case) => k.id != c;
    FilterPairwise(db.cases, keep, CaseIdLess);
    FilterPairwise(db.cases, keep, CaseOlder);
    var rest := DropCase(db.cases, c);
    forall k | k in rest ensures 1 <= k.id < nextId && k.createdAt < clock {
      var i :| 0 <= i < |rest| && rest[i] == k;
    }
  }

  // ---------------------------------------------------------------- store

  /** The database file behind the DAO functions. */
  class Store {
    var cases: seq<Case>
    var inputs: seq<Row<InputData>>
    var patterns: seq<Row<PatternData>>
    var assignments: seq<Row<AssignmentData>>
    var axisStates: seq<Row<AxisStateData>>
    var tensions: seq<Row<TensionData>>
    var thresholds: seq<Row<ThresholdData>>
    var archetypes: seq<Row<ArchetypeData>>
    /** The next AUTOINCREMENT id. */
    var nextId: nat
    /** The next `datetime.now()` value. */
    var clock: nat

    function Snapshot(): Contents
      reads this
    {
      Contents(cases, inputs, patterns, assignments, axisStates, tensions, thresholds, archetypes)
    }

    ghost predicate Valid()
      reads this
    {
      TablesValid(Snapshot(), nextId, clock)
    }

    /** `init_db` on a database file that does not exist yet. */
    constructor ()
      ensures Valid() && Snapshot() == EmptyContents
    {
      cases, inputs, patterns, assignments := [], [], [], [];
      axisStates, tensions, thresholds, archetypes := [], [], [], [];
      nextId, clock := 1, 0;
    }

    // writers: each one is a DAO function; None / false stands for the
    // sqlite3 exception it raises, after which nothing was committed

    method CreateCase(identifier: Json, description: Json) returns (id: Option<nat>)
      requires Valid()
      modifies this
      ensures Valid()
      ensures id.Some? <==> Bindable(identifier) && Bindable(description)
      ensures id.Some? ==>
        id.value == old(nextId) && FindCase(old(cases), id.value).None? &&
        nextId == old(nextId) + 1 && clock == old(clock) + 1 &&
        Snapshot() == old(Snapshot()).(cases := old(cases) + [Case(id.value, identifier, description, old(clock))])
      ensures id.None? ==> Snapshot() == old(Snapshot()) && nextId == old(nextId) && clock == old(clock)
    {
      if !(Bindable(identifier) && Bindable(description)) {
        return None;
      }
      var k := Case(nextId, identifier, description, clock);
      PairwiseSnoc(cases, k, CaseIdLess);
      PairwiseSnoc(cases, k, CaseOlder);
      TablesValidLater(Snapshot(), nextId, clock, nextId + 1, clock + 1);
      cases := cases + [k];
      id := Some(nextId);
      nextId, clock := nextId + 1, clock + 1;
    }

    /** One `DELETE FROM <t> WHERE case_id = ?` of `delete_case`. */
    method DeleteFrom(t: TableName, c: int)
      modifies this
      ensures Snapshot() == DeleteRows(old(Snapshot()), t, c)
      ensures cases == old(cases) && nextId == old(nextId) && clock == old(clock)
    {
      match t
      case InputsTable => inputs := WithoutCase(inputs, c);
      case PatternsTable => patterns := WithoutCase(patterns, c);
      case AssignmentsTable => assignments := WithoutCase(assignments, c);
      case AxisStatesTable => axisStates := WithoutCase(axisStates, c);
      case TensionsTable => tensions := WithoutCase(tensions, c);
      case ThresholdsTable => thresholds := WithoutCase(thresholds, c);
      case ArchetypesTable => archetypes := WithoutCase(archetypes, c);
    }

    method DeleteCase(c: int) returns (ok: bool)
      requires Valid()
      modifies this
      ensures Valid() && ok
      ensures Snapshot() == CascadeDelete(old(Snapshot()), c)
      ensures nextId == old(nextId) && clock == old(clock)
    {
      var tables := DependentTables;
      var i := 0;
      while i < |tables|
        invariant 0 <= i <= |tables|
        invariant Valid()
        invariant nextId == old(nextId) && clock == old(clock)
        invariant cases == old(cases)
        invariant DeleteAll(Snapshot(), tables[i..], c) == DeleteAll(old(Snapshot()), tables, c)
      {
        assert tables[i..][1..] == tables[i + 1..];
        ghost var before := Snapshot();
        DeleteFrom(tables[i], c);
        DeleteRowsValid(before, tables[i], c, nextId, clock);
        i := i + 1;
      }
      ghost var before := Snapshot();
      DropCaseValid(before, c, nextId, clock);
      cases := DropCase(cases, c);
      assert Snapshot() == before.(cases := DropCase(before.cases, c));
      ok := true;
    }

    method AddInput(c: int, content: Json, inputType: Json, metadata: Json) returns (id: Option<nat>)
      requires Valid()
      modifies this
      ensures Valid()
      ensures id.Some? <==> Bindable(content) && Bindable(inputType)
      ensures id.Some? ==>
        id.value == old(nextId) && nextId == old(nextId) + 1 && clock == old(clock) + 1 &&
        Snapshot() == old(Snapshot()).(inputs :=
          old(inputs) + [Row(id.value, c, InputData(content, inputType, MetadataText(metadata), old(clock)))])
      ensures id.None? ==> Snapshot() == old(Snapshot()) && nextId == old(nextId) && clock == old(clock)
    {
      if !(Bindable(content) && Bindable(inputType)) {
        return None;
      }
      var r := Row(nextId, c, InputData(content, inputType, MetadataText(metadata), clock));
      FreshIdsSnoc(inputs, nextId, r);
      PairwiseSnoc(inputs, r, InputOlder);
      TablesValidLater(Snapshot(), nextId, clock, nextId + 1, clock + 1);
      inputs := inputs + [r];
      id := Some(nextId);
      nextId, clock := nextId + 1, clock + 1;
    }

    method AddPattern(c: int, description: Json, recurrence: Json, persistence: Json,
                      pressureContext: Json, contradictions: Json) returns (id: Option<nat>)
      requires Valid()
      modifies this
      ensures Valid() && clock == old(clock)
      ensures var d := PatternData(description, recurrence, persistence, pressureContext, contradictions);
        if d.Storable() then
          id == Some(old(nextId)) && nextId == old(nextId) + 1 &&
          Snapshot() == old(Snapshot()).(patterns := old(patterns) + [Row(old(nextId), c, d)])
        else
          id.None? && nextId == old(nextId) && Snapshot() == old(Snapshot())
    {
      var d := PatternData(description, recurrence, persistence, pressureContext, contradictions);
      if !d.Storable() {
        return None;
      }
      var r := Row(nextId, c, d);
      FreshIdsSnoc(patterns, nextId, r);
      TablesValidLater(Snapshot(), nextId, clock, nextId + 1, clock);
      patterns := patterns + [r];
      id := Some(nextId);
      nextId := nextId + 1;
    }

    method SaveAxisAssignment(c: int, patternId: Json, axisName: Json, justification: Json) returns (id: Option<nat>)
      requires Valid()
      modifies this
      ensures Valid() && clock == old(clock)
      ensures var d := AssignmentData(patternId, axisName, justification);
        if d.Storable() then
          id == Some(old(nextId)) && nextId == old(nextId) + 1 &&
          Snapshot() == old(Snapshot()).(assignments := old(assignments) + [Row(old(nextId), c, d)])
        else
          id.None? && nextId == old(nextId) && Snapshot() == old(Snapshot())
    {
      var d := AssignmentData(patternId, axisName, justification);
      if !d.Storable() {
        return None;
      }
      var r := Row(nextId, c, d);
      FreshIdsSnoc(assignments, nextId, r);
      TablesValidLater(Snapshot(), nextId, clock, nextId + 1, clock);
      assignments := assignments + [r];
      id := Some(nextId);
      nextId := nextId + 1;
    }

    method SaveAxisState(c: int, axisName: Json, status: Json, value: Json, justification: Json) returns (ok: bool)
      requires Valid()
      modifies this
      ensures Valid() && clock == old(clock)
      ensures var d := AxisStateData(axisName, status, value, justification);
        if d.Storable() then
          ok && nextId == old(nextId) + 1 &&
          Snapshot() == old(Snapshot()).(axisStates := ReplaceAxisState(old(axisStates), Row(old(nextId), c, d)))
        else
          !ok && nextId == old(nextId) && Snapshot() == old(Snapshot())
    {
      var d := AxisStateData(axisName, status, value, justification);
      if !d.Storable() {
        return false;
      }
      var r := Row(nextId, c, d);
      var rest := Filter(axisStates, (s: Row<AxisStateData>) => !SameAxisKey(s, r.caseId, r.data.axisName));
      FreshIdsFilter(axisStates, nextId, (s: Row<AxisStateData>) => !SameAxisKey(s, r.caseId, r.data.axisName));
      FreshIdsSnoc(rest, nextId, r);
      ReplaceAxisStateUnique(axisStates, r);
      TablesValidLater(Snapshot(), nextId, clock, nextId + 1, clock);
      axisStates := ReplaceAxisState(axisStates, r);
      ok := true;
      nextId := nextId + 1;
    }

    method SaveTension(c: int, description: Json, tensionType: Json, axesInvolved: Json, severity: Json) returns (ok: bool)
      requires Valid()
      modifies this
      ensures Valid() && clock == old(clock)
      ensures var d := TensionData(description, tensionType, Dumped(axesInvolved), severity);
        if d.Storable() then
          ok && nextId == old(nextId) + 1 &&
          Snapshot() == old(Snapshot()).(tensions := old(tensions) + [Row(old(nextId), c, d)])
        else
          !ok && nextId == old(nextId) && Snapshot() == old(Snapshot())
    {
      var d := TensionData(description, tensionType, Dumped(axesInvolved), severity);
      if !d.Storable() {
        return false;
      }
      var r := Row(nextId, c, d);
      FreshIdsSnoc(tensions, nextId, r);
      TablesValidLater(Snapshot(), nextId, clock, nextId + 1, clock);
      tensions := tensions + [r];
      ok := true;
      nextId := nextId + 1;
    }

    method ClearCaseTensions(c: int)
      requires Valid()
      modifies this
      ensures Valid() && nextId == old(nextId) && clock == old(clock)
      ensures Snapshot() == old(Snapshot()).(tensions := WithoutCase(old(tensions), c))
    {
      DeleteRowsValid(Snapshot(), TensionsTable, c, nextId, clock);
      tensions := WithoutCase(tensions, c);
    }

    method SaveThresholdEvaluation(c: int, score: Json, status: Json, reasoning: Json) returns (ok: bool)
      requires Valid()
      modifies this
      ensures Valid()
      ensures var d := ThresholdData(score, status, reasoning, old(clock));
        if d.Storable() then
          ok && nextId == old(nextId) + 1 && clock == old(clock) + 1 &&
          Snapshot() == old(Snapshot()).(thresholds := ReplaceForCase(old(thresholds), Row(old(nextId), c, d)))
        else
          !ok && nextId == old(nextId) && clock == old(clock) && Snapshot() == old(Snapshot())
    {
      var d := ThresholdData(score, status, reasoning, clock);
      if !d.Storable() {
        return false;
      }
      var r := Row(nextId, c, d);
      FreshIdsFilter(thresholds, nextId, (s: Row<ThresholdData>) => s.caseId != c);
      FreshIdsSnoc(WithoutCase(thresholds, c), nextId, r);
      ReplaceForCaseUnique(thresholds, r);
      TablesValidLater(Snapshot(), nextId, clock, nextId + 1, clock + 1);
      thresholds := ReplaceForCase(thresholds, r);
      ok := true;
      nextId, clock := nextId + 1, clock + 1;
    }

    method SaveArchetypeAssignment(c: int, name: Json, description: Json, fitScore: Json, keyTraits: Json) returns (ok: bool)
      requires Valid()
      modifies this
      ensures Valid()
      ensures var d := ArchetypeData(name, description, fitScore, Dumped(keyTraits), old(clock));
        if d.Storable() then
          ok && nextId == old(nextId) + 1 && clock == old(clock) + 1 &&
          Snapshot() == old(Snapshot()).(archetypes := ReplaceForCase(old(archetypes), Row(old(nextId), c, d)))
        else
          !ok && nextId == old(nextId) && clock == old(clock) && Snapshot() == old(Snapshot())
    {
      var d := ArchetypeData(name, description, fitScore, Dumped(keyTraits), clock);
      if !d.Storable() {
        return false;
      }
      var r := Row(nextId, c, d);
      FreshIdsFilter(archetypes, nextId, (s: Row<ArchetypeData>) => s.caseId != c);
      FreshIdsSnoc(WithoutCase(archetypes, c), nextId, r);
      ReplaceForCaseUnique(archetypes, r);
      TablesValidLater(Snapshot(), nextId, clock, nextId + 1, clock + 1);
      archetypes := ReplaceForCase(archetypes, r);
      ok := true;
      nextId, clock := nextId + 1, clock + 1;
    }
  }
}
