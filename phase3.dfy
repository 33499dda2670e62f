/** The phase-3 application (backup_phase3_ok/app.py). Its `create_case`,
    `add_input` and `analyze_patterns` are the phase-7 handlers line for
    line; what differs is `link_axes`, where the model names patterns by
    id and every item carries a list of axis matches. */
module Phase3 {
  import opened Wrappers
  import opened Json
  import opened Tables
  import opened Steps
  import opened Database
  import opened Gateway
  import Phase7

  /** The cloud branch: `result_json if isinstance(result_json, list) else
      result_json.get('assignments', [])`, then the dict-to-list wrap. */
  function CloudAssignments(v: Json): (r: Outcome<Json>)
    ensures r.Failure? <==> !v.JList? && !v.JObject?
    ensures r.Success? ==> !r.value.JObject?
  {
    if v.JList? then Success(v)
    else
      match Get(v, "assignments", JList([]))
      case None => Failure(Internal)
      case Some(a) => Success(AsList(a))
  }

  /** The local branch: the bracketed text the search finds, decoded, and
      the same choice as in the cloud branch but without the wrap. Any
      exception on the way (no match, a decode error, `.get` on a value that
      is not a dict) is swallowed and leaves `assignments = []`. */
  function LocalAssignments(env: Env, content: string): Json {
    match ExtractJson(content)
    case None => JList([])
    case Some(t) =>
      match env.loads(t)
      case None => JList([])
      case Some(v) => if v.JList? then v else Get(v, "assignments", JList([])).GetOr(JList([]))
  }

  /** Everything `link_axes` does before its loops: `request.json or {}`,
      the mode, the patterns gate, the prompt file, the call and the
      normalisation of its reply. A decode error in the cloud branch is
      caught by the outer `except`. */
  function LinkAxesPlan(body: Json, hasPatterns: bool, env: Env, reply: Option<string>): (r: Outcome<Json>)
    ensures r.Failure? ==> r.error in {Internal, NoPatterns}
  {
    match IsCloud(OrEmpty(body))
    case None => Failure(Internal)
    case Some(cloud) =>
      if !hasPatterns then Failure(NoPatterns)
      else if LinkPrompt !in env.promptFiles then Failure(Internal)
      else if reply.None? then Failure(Internal)
      else if cloud then
        match env.loads(reply.value)
        case None => Failure(Internal)
        case Some(v) => CloudAssignments(v)
      else Success(LocalAssignments(env, reply.value))
  }

  /** Without patterns the handler answers before it reads a prompt or a
      reply; an empty body counts as `{}`. */
  lemma LinkAxesGate(body: Json, env: Env, reply: Option<string>, env': Env, reply': Option<string>)
    ensures LinkAxesPlan(body, false, env, reply) == LinkAxesPlan(body, false, env', reply')
    ensures !Truthy(body) || body.JObject? ==> LinkAxesPlan(body, false, env, reply) == Failure(NoPatterns)
  {
  }

  /** The reply shapes each branch accepts, and what it makes of each. */
  lemma LinkAxesShapes(v: Json, env: Env, content: string)
    ensures v.JList? ==> CloudAssignments(v) == Success(v)
    ensures v.JObject? && Lookup(v.fields, "assignments").None? ==> CloudAssignments(v) == Success(JList([]))
    ensures v.JObject? && Lookup(v.fields, "assignments") == Some(v) ==> CloudAssignments(v) == Success(JList([v]))
    ensures ExtractJson(content).None? ==> LocalAssignments(env, content) == JList([])
    ensures ExtractJson(content).Some? && env.loads(ExtractJson(content).value).None? ==>
      LocalAssignments(env, content) == JList([])
  {
  }

  /** In the local branch nothing the model answers makes the plan fail. */
  lemma LocalNeverFails(body: Json, env: Env, text: string)
    requires IsCloud(OrEmpty(body)) == Some(false) && LinkPrompt in env.promptFiles
    ensures LinkAxesPlan(body, true, env, Some(text)) == Success(LocalAssignments(env, text))
  {
  }

  /** `db.save_axis_assignment(case_id, pid, m.get('axis_name'), m.get('justification'))`. */
  function MatchStep(pid: Json, m: Json): (r: Step<AssignmentData>)
    ensures !r.Skip?
    ensures r.Save? <==> m.JObject?
  {
    if m.JObject? then
      Save(AssignmentData(pid, Phase7.Field(m.fields, "axis_name", JNull), Phase7.Field(m.fields, "justification", JNull)))
    else Raise
  }

  /** The steps of one item: `pid = item.get('pattern_id')`,
      `matches = item.get('axis_matches', [])` and one save per match; a
      single raise where `item` is not a dict or `matches` cannot be
      iterated. */
  function ItemSteps(item: Json): (r: seq<Step<AssignmentData>>)
    ensures forall k :: 0 <= k < |r| ==> !r[k].Skip?
  {
    if !item.JObject? then [Raise]
    else
      match Iterate(Phase7.Field(item.fields, "axis_matches", JList([])))
      case None => [Raise]
      case Some(ms) =>
        var pid := Phase7.Field(item.fields, "pattern_id", JNull);
        seq(|ms|, k requires 0 <= k < |ms| => MatchStep(pid, ms[k]))
  }

  function ItemParts(items: seq<Json>): seq<seq<Step<AssignmentData>>> {
    seq(|items|, i requires 0 <= i < |items| => ItemSteps(items[i]))
  }

  /** The number of axis matches of an item. */
  function ItemMatches(item: Json): nat {
    if item.JObject? && Iterate(Phase7.Field(item.fields, "axis_matches", JList([]))).Some? then
      |Iterate(Phase7.Field(item.fields, "axis_matches", JList([]))).value|
    else 0
  }

  /** The total number of axis matches over the items. */
  function MatchCount(items: seq<Json>): nat {
    if |items| == 0 then 0 else MatchCount(items[..|items| - 1]) + ItemMatches(items[|items| - 1])
  }

  /** An item whose steps all pass saves once per axis match. */
  lemma ItemStepsPass(item: Json)
    ensures AllPass(ItemSteps(item), Phase7.AssignmentStorable) ==>
      |ItemSteps(item)| == ItemMatches(item) && forall k :: 0 <= k < |ItemSteps(item)| ==> ItemSteps(item)[k].Save?
  {
    if !item.JObject? || Iterate(Phase7.Field(item.fields, "axis_matches", JList([]))).None? {
      assert !Passes(ItemSteps(item)[0], Phase7.AssignmentStorable);
    }
  }

  /** A run through all items saves once per axis match of every item. */
  lemma {:induction false} MatchCountSaves(items: seq<Json>)
    requires AllPass(Flatten(ItemParts(items)), Phase7.AssignmentStorable)
    ensures |Flatten(ItemParts(items))| == MatchCount(items)
    ensures forall k :: 0 <= k < |Flatten(ItemParts(items))| ==> Flatten(ItemParts(items))[k].Save?
    decreases |items|
  {
    if |items| > 0 {
      var init, last := items[..|items| - 1], items[|items| - 1];
      assert ItemParts(items) == ItemParts(init) + [ItemSteps(last)];
      FlattenSnoc(ItemParts(init), ItemSteps(last));
      var xs: seq<Step<AssignmentData>>, ys: seq<Step<AssignmentData>> := Flatten(ItemParts(init)), ItemSteps(last);
      AllPassSplit(xs, ys, Phase7.AssignmentStorable);
      MatchCountSaves(init);
      ItemStepsPass(last);
      forall k | 0 <= k < |xs + ys| ensures (xs + ys)[k].Save? {
        if k < |xs| {
          assert (xs + ys)[k] == xs[k];
        } else {
          assert (xs + ys)[k] == ys[k - |xs|];
        }
      }
    }
  }

  /** One `save_axis_assignment` for match `j` of item `i`, which sits at
      position `k` of the concatenated steps. */
  method SaveMatchAt(s: Store, c: int, parts: seq<seq<Step<AssignmentData>>>, i: nat, j: nat, k: nat,
                     ghost before: seq<Row<AssignmentData>>, ghost first: nat) returns (go: bool)
    requires s.Valid() && i < |parts| && j < |parts[i]| && k == |Flatten(parts[..i])| + j
    requires AppendedSoFar(Flatten(parts), Phase7.AssignmentStorable, k, before, s.assignments, first, s.nextId, c)
    modifies s
    ensures s.Valid() && s.clock == old(s.clock)
    ensures (s.cases, s.inputs, s.patterns, s.axisStates, s.tensions, s.thresholds, s.archetypes) ==
      old((s.cases, s.inputs, s.patterns, s.axisStates, s.tensions, s.thresholds, s.archetypes))
    ensures go ==> AppendedSoFar(Flatten(parts), Phase7.AssignmentStorable, k + 1, before, s.assignments, first, s.nextId, c)
    ensures !go ==> RunAppends(Flatten(parts), Phase7.AssignmentStorable, false, before, s.assignments, first, c)
  {
    FlattenAt(parts, i, j);
    go := Phase7.SaveAssignmentStep(s, c, parts[i][j]);
    AppendAdvance(Flatten(parts), Phase7.AssignmentStorable, k, before, old(s.assignments), s.assignments, first,
                  old(s.nextId), s.nextId, c, go);
  }

  /** The inner loop `for m in matches` over item `i`, with the running
      `saved_count`. */
  method SaveItem(s: Store, c: int, parts: seq<seq<Step<AssignmentData>>>, i: nat, count: nat,
                  ghost before: seq<Row<AssignmentData>>, ghost first: nat) returns (ok: bool, count': nat)
    requires s.Valid() && i < |parts| && count == |Flatten(parts[..i])|
    requires AppendedSoFar(Flatten(parts), Phase7.AssignmentStorable, count, before, s.assignments, first, s.nextId, c)
    modifies s
    ensures s.Valid() && s.clock == old(s.clock)
    ensures (s.cases, s.inputs, s.patterns, s.axisStates, s.tensions, s.thresholds, s.archetypes) ==
      old((s.cases, s.inputs, s.patterns, s.axisStates, s.tensions, s.thresholds, s.archetypes))
    ensures ok ==> (count' == |Flatten(parts[..i + 1])| &&
      AppendedSoFar(Flatten(parts), Phase7.AssignmentStorable, count', before, s.assignments, first, s.nextId, c))
    ensures !ok ==> RunAppends(Flatten(parts), Phase7.AssignmentStorable, false, before, s.assignments, first, c)
  {
    ghost var flat := Flatten(parts);
    var matches := parts[i];
    var j := 0;
    ok := true;
    count' := count;
    while ok && j < |matches|
      invariant s.Valid() && s.clock == old(s.clock) && j <= |matches|
      invariant ok ==> (count' == count + j &&
        AppendedSoFar(flat, Phase7.AssignmentStorable, count', before, s.assignments, first, s.nextId, c))
      invariant !ok ==> RunAppends(flat, Phase7.AssignmentStorable, false, before, s.assignments, first, c)
      invariant (s.cases, s.inputs, s.patterns, s.axisStates, s.tensions, s.thresholds, s.archetypes) ==
        old((s.cases, s.inputs, s.patterns, s.axisStates, s.tensions, s.thresholds, s.archetypes))
      decreases |matches| - j, ok
    {
      ok := SaveMatchAt(s, c, parts, i, j, count', before, first);
      if ok {
        count', j := count' + 1, j + 1;
      }
    }
    if ok {
      FlattenNext(parts, i);
    }
  }

  /** The nested loops of `link_axes`: `for item in assignments`, then
      `for m in matches`, counting the saves. */
  method SaveItems(s: Store, c: int, parts: seq<seq<Step<AssignmentData>>>) returns (ok: bool, savedCount: nat)
    requires s.Valid()
    modifies s
    ensures s.Valid() && s.clock == old(s.clock)
    ensures RunAppends(Flatten(parts), Phase7.AssignmentStorable, ok, old(s.assignments), s.assignments, old(s.nextId), c)
    ensures ok ==> savedCount == |Flatten(parts)|
    ensures s.Snapshot() == old(s.Snapshot()).(assignments := s.assignments)
  {
    var i := 0;
    ok := true;
    savedCount := 0;
    assert parts[..0] == [];
    while ok && i < |parts|
      invariant s.Valid() && s.clock == old(s.clock) && i <= |parts|
      invariant ok ==> (savedCount == |Flatten(parts[..i])| &&
        AppendedSoFar(Flatten(parts), Phase7.AssignmentStorable, savedCount, old(s.assignments), s.assignments,
                      old(s.nextId), s.nextId, c))
      invariant !ok ==> RunAppends(Flatten(parts), Phase7.AssignmentStorable, false, old(s.assignments), s.assignments,
                                   old(s.nextId), c)
      invariant (s.cases, s.inputs, s.patterns, s.axisStates, s.tensions, s.thresholds, s.archetypes) ==
        old((s.cases, s.inputs, s.patterns, s.axisStates, s.tensions, s.thresholds, s.archetypes))
      decreases |parts| - i, ok
    {
      ok, savedCount := SaveItem(s, c, parts, i, savedCount, old(s.assignments), old(s.nextId));
      if ok {
        i := i + 1;
      }
    }
    if ok {
      assert parts[..|parts|] == parts;
      DoneSteps(Flatten(parts), Phase7.AssignmentStorable, old(s.assignments), s.assignments, old(s.nextId), s.nextId, c);
    }
  }

  /** `POST /api/cases/<id>/analyze/link_axes` of phase 3: the plan's error
      with nothing written, or the run of saves over every item's matches;
      the response carries `saved_count` and the normalised assignments. */
  method LinkAxes(s: Store, c: int, body: Json, env: Env, reply: Option<string>) returns (r: Outcome<(nat, Json)>)
    requires s.Valid()
    modifies s
    ensures s.Valid() && s.clock == old(s.clock)
    ensures var plan := LinkAxesPlan(body, |old(s.Snapshot()).CasePatterns(c)| > 0, env, reply);
      if plan.Failure? then
        r == Failure(plan.error) && s.Snapshot() == old(s.Snapshot())
      else if Iterate(plan.value).None? then
        r == Failure(Internal) && s.Snapshot() == old(s.Snapshot())
      else
        var parts := ItemParts(Iterate(plan.value).value);
        (r == Success((|Flatten(parts)|, plan.value)) || r == Failure(Internal)) &&
        RunAppends(Flatten(parts), Phase7.AssignmentStorable, r.Success?, old(s.assignments), s.assignments,
                   old(s.nextId), c) &&
        s.Snapshot() == old(s.Snapshot()).(assignments := s.assignments)
  {
    var plan := LinkAxesPlan(body, |s.Snapshot().CasePatterns(c)| > 0, env, reply);
    if plan.Failure? {
      return Failure(plan.error);
    }
    var items := Iterate(plan.value);
    if items.None? {
      return Failure(Internal);
    }
    var ok, savedCount := SaveItems(s, c, ItemParts(items.value));
    r := if ok then Success((savedCount, plan.value)) else Failure(Internal);
  }

  /** A run that got through wrote exactly one assignment per axis match of
      every item, and `saved_count` is their number. */
  lemma LinkAxesResult(items: seq<Json>, before: seq<Row<AssignmentData>>, after: seq<Row<AssignmentData>>,
                       first: nat, c: int)
    requires RunAppends(Flatten(ItemParts(items)), Phase7.AssignmentStorable, true, before, after, first, c)
    ensures var saved := Saves(Flatten(ItemParts(items)));
      |Flatten(ItemParts(items))| == MatchCount(items) && |saved| == MatchCount(items) &&
      after == before + Stamp(first, c, saved)
  {
    var flat := Flatten(ItemParts(items));
    MatchCountSaves(items);
    SavedEach(flat, |flat|);
  }
}
