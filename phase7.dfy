/** The Flask handlers of the phase-7 application (backup_phase7_ok/app.py):
    case and input creation, and the six analysis steps, each gated on the
    output of the step before it. */
module Phase7 {
  import opened Wrappers
  import opened Json
  import opened Tables
  import opened Steps
  import opened Database
  import opened Gateway
  import opened Strings

  /** `d.get(key, default)` on a dict's fields. */
  function Field(fields: seq<(string, Json)>, key: string, default: Json): Json {
    Lookup(fields, key).GetOr(default)
  }

  // ------------------------------------------------------ cases and inputs

  /** `POST /api/cases`. */
  method CreateCase(s: Store, body: Json) returns (r: Outcome<nat>)
    requires s.Valid()
    modifies s
    ensures s.Valid()
    ensures !body.JObject? ==> r == Failure(Internal) && s.Snapshot() == old(s.Snapshot())
    ensures body.JObject? ==>
      var identifier := Field(body.fields, "identifier", JNull);
      var description := Field(body.fields, "description", JString(""));
      if !Truthy(identifier) then
        r == Failure(MissingIdentifier) && s.Snapshot() == old(s.Snapshot())
      else if !(Bindable(identifier) && Bindable(description)) then
        r == Failure(Internal) && s.Snapshot() == old(s.Snapshot())
      else
        r.Success? && old(s.Snapshot()).GetCase(r.value).None? &&
        s.Snapshot().GetCase(r.value) == Some(Case(r.value, identifier, description, old(s.clock))) &&
        s.Snapshot() == old(s.Snapshot()).(cases := old(s.cases) + [Case(r.value, identifier, description, old(s.clock))])
  {
    if !body.JObject? {
      return Failure(Internal);
    }
    var identifier := Field(body.fields, "identifier", JNull);
    var description := Field(body.fields, "description", JString(""));
    if !Truthy(identifier) {
      return Failure(MissingIdentifier);
    }
    var id := s.CreateCase(identifier, description);
    if id.None? {
      return Failure(Internal);
    }
    FindCaseSnoc(old(s.cases), Case(id.value, identifier, description, old(s.clock)), id.value);
    r := Success(id.value);
  }

  /** `GET /api/cases/<id>`. */
  function CaseDetails(s: Store, c: int): (r: Outcome<Case>)
    reads s
    ensures r.Success? <==> exists k :: k in s.cases && k.id == c
    ensures r.Success? ==> r.value in s.cases && r.value.id == c
    ensures r.Failure? ==> r.error == CaseNotFound
  {
    match s.Snapshot().GetCase(c)
    case None => Failure(CaseNotFound)
    case Some(k) => Success(k)
  }

  /** `POST /api/cases/<id>/inputs`. */
  method AddInput(s: Store, c: int, body: Json) returns (r: Outcome<nat>)
    requires s.Valid()
    modifies s
    ensures s.Valid()
    ensures !body.JObject? ==> r == Failure(Internal) && s.Snapshot() == old(s.Snapshot())
    ensures body.JObject? ==>
      var content := Field(body.fields, "content", JNull);
      var inputType := Field(body.fields, "input_type", JString("frase"));
      var metadata := Field(body.fields, "metadata", JObject([]));
      if !Truthy(content) then
        r == Failure(MissingContent) && s.Snapshot() == old(s.Snapshot())
      else if !(Bindable(content) && Bindable(inputType)) then
        r == Failure(Internal) && s.Snapshot() == old(s.Snapshot())
      else
        r.Success? &&
        var row := Row(r.value, c, InputData(content, inputType, MetadataText(metadata), old(s.clock)));
        s.Snapshot() == old(s.Snapshot()).(inputs := old(s.inputs) + [row]) &&
        |s.Snapshot().CaseInputs(c)| > 0 && s.Snapshot().CaseInputs(c)[0] == row
  {
    if !body.JObject? {
      return Failure(Internal);
    }
    var content := Field(body.fields, "content", JNull);
    var inputType := Field(body.fields, "input_type", JString("frase"));
    var metadata := Field(body.fields, "metadata", JObject([]));
    if !Truthy(content) {
      return Failure(MissingContent);
    }
    var id := s.AddInput(c, content, inputType, metadata);
    if id.None? {
      return Failure(Internal);
    }
    var row := Row(id.value, c, InputData(content, inputType, MetadataText(metadata), old(s.clock)));
    FilterSnoc(old(s.inputs), row, (r: Row<InputData>) => r.caseId == c);
    r := Success(id.value);
  }

  // ------------------------------------------------------------- patterns

  /** The list `analyze_patterns` iterates over, from the decoded reply. */
  function PatternBatch(v: Json): (r: Outcome<Json>)
    ensures r.Success? ==> r.value.JList?
    ensures r.Failure? <==> !v.JList? && !v.JObject?
    ensures r.Failure? ==> r.error == Internal
  {
    var found := if v.JList? then Success(v) else Unwrap(v, "patterns");
    match found
    case Failure(e) => Failure(e)
    case Success(p) =>
      if p.JObject? then Success(JList([p]))
      else if p.JList? then Success(p)
      else Success(JList([]))
  }

  /** The reply shapes `analyze_patterns` accepts and what it makes of each. */
  lemma PatternBatchShapes(v: Json)
    ensures v.JList? ==> PatternBatch(v) == Success(v)
    ensures v.JObject? && Lookup(v.fields, "patterns").None? ==> PatternBatch(v) == Success(JList([v]))
    ensures v.JObject? && Lookup(v.fields, "patterns").Some? ==>
      var p := Lookup(v.fields, "patterns").value;
      PatternBatch(v) == Success(if p.JList? then p else if p.JObject? then JList([p]) else JList([]))
  {
  }

  /** Everything `analyze_patterns` does before its saving loop: the body
      and mode, the inputs gate, the prompt file, the API key, the call and
      the decoding of its reply. */
  function PatternsPlan(body: Json, hasInputs: bool, env: Env, reply: Option<string>): (r: Outcome<Json>)
    ensures r.Success? ==> r.value.JList?
  {
    match IsCloud(OrEmpty(body))
    case None => Failure(Internal)
    case Some(cloud) =>
      if !hasInputs then Failure(NoInputs)
      else if PatternPrompt !in env.promptFiles then Failure(MissingPrompt)
      else if cloud && !ApiKeySet(env.apiKey) then Failure(MissingApiKey)
      else if reply.None? then Failure(Internal)
      else if cloud then
        match env.loads(reply.value)
        case None => Failure(Internal)
        case Some(v) => PatternBatch(v)
      else
        match ExtractJson(reply.value)
        case None => Failure(NoJsonFound)
        case Some(t) =>
          match env.loads(t)
          case None => Failure(MalformedReply)
          case Some(v) => PatternBatch(v)
  }

  /** Without inputs the handler answers before it reads a prompt, a key or
      a reply; a body that is not a dict (but not empty either) fails first. */
  lemma PatternsGate(body: Json, env: Env, reply: Option<string>, env': Env, reply': Option<string>)
    ensures PatternsPlan(body, false, env, reply) == PatternsPlan(body, false, env', reply')
    ensures PatternsPlan(body, false, env, reply) ==
      if IsCloud(OrEmpty(body)).None? then Failure(Internal) else Failure(NoInputs)
    ensures !Truthy(body) ==> PatternsPlan(body, false, env, reply) == Failure(NoInputs)
  {
  }

  /** The errors that belong to one mode only. */
  lemma PatternsModeErrors(body: Json, hasInputs: bool, env: Env, reply: Option<string>)
    ensures IsCloud(OrEmpty(body)) == Some(false) ==> PatternsPlan(body, hasInputs, env, reply) != Failure(MissingApiKey)
    ensures IsCloud(OrEmpty(body)) == Some(true) ==>
      PatternsPlan(body, hasInputs, env, reply) != Failure(NoJsonFound) &&
      PatternsPlan(body, hasInputs, env, reply) != Failure(MalformedReply)
    ensures PatternsPlan(body, hasInputs, env, reply) == Failure(MissingApiKey) ==>
      hasInputs && PatternPrompt in env.promptFiles && !ApiKeySet(env.apiKey)
  {
  }

  const NoDescription := JString("Sin descripción")
  const DefaultRecurrence := JString("Media")
  const DefaultPersistence := JString("Desconocida")
  const DefaultPressure := JString("No especificado")
  /** What the front end hides: 'Ninguna'. */
  const NoContradictions := JString("Ninguna")

  /** One element of the batch: `p.get(key, default)` for the five columns. */
  function PatternStep(p: Json): (r: Step<PatternData>)
    ensures !r.Skip?
    ensures r.Raise? <==> !p.JObject?
  {
    match p
    case JObject(f) =>
      Save(PatternData(
        Field(f, "description", NoDescription), Field(f, "recurrence", DefaultRecurrence),
        Field(f, "persistence", DefaultPersistence), Field(f, "pressure_context", DefaultPressure),
        Field(f, "contradictions", NoContradictions)))
    case _ => Raise
  }

  /** A key the model leaves out gets the documented default. */
  lemma PatternDefaults(f: seq<(string, Json)>)
    ensures var d := PatternStep(JObject(f)).record;
      (Lookup(f, "description").None? ==> d.description == NoDescription) &&
      (Lookup(f, "recurrence").None? ==> d.recurrence == DefaultRecurrence) &&
      (Lookup(f, "persistence").None? ==> d.persistence == DefaultPersistence) &&
      (Lookup(f, "pressure_context").None? ==> d.pressureContext == DefaultPressure) &&
      (Lookup(f, "contradictions").None? ==> d.contradictions == NoContradictions)
    ensures var d := PatternStep(JObject(f)).record;
      (Lookup(f, "description").Some? ==> d.description == Lookup(f, "description").value) &&
      (Lookup(f, "contradictions").Some? ==> d.contradictions == Lookup(f, "contradictions").value)
  {
  }

  function PatternSteps(items: seq<Json>): seq<Step<PatternData>> {
    seq(|items|, i requires 0 <= i < |items| => PatternStep(items[i]))
  }

  predicate PatternStorable(d: PatternData) { d.Storable() }

  /** One element of the saving loop: it raises, or its `add_pattern` call
      raises or appends a row. */
  method SavePatternStep(s: Store, c: int, st: Step<PatternData>) returns (go: bool)
    requires s.Valid()
    modifies s
    ensures s.Valid() && s.clock == old(s.clock)
    ensures s.cases == old(s.cases) && s.inputs == old(s.inputs) && s.assignments == old(s.assignments) &&
      s.axisStates == old(s.axisStates) && s.tensions == old(s.tensions) &&
      s.thresholds == old(s.thresholds) && s.archetypes == old(s.archetypes)
    ensures go <==> Passes(st, PatternStorable)
    ensures s.patterns == if go && st.Save? then old(s.patterns) + [Row(old(s.nextId), c, st.record)] else old(s.patterns)
    ensures s.nextId == if go && st.Save? then old(s.nextId) + 1 else old(s.nextId)
  {
    match st
    case Skip => go := true;
    case Raise => go := false;
    case Save(d) =>
      var id := s.AddPattern(c, d.description, d.recurrence, d.persistence, d.pressureContext, d.contradictions);
      go := id.Some?;
  }

  /** One turn of the saving loop, stated over the run so far. */
  method SavePatternAt(s: Store, c: int, steps: seq<Step<PatternData>>, i: nat,
                       ghost before: seq<Row<PatternData>>, ghost first: nat) returns (go: bool)
    requires s.Valid() && i < |steps| && AppendedSoFar(steps, PatternStorable, i, before, s.patterns, first, s.nextId, c)
    modifies s
    ensures s.Valid() && s.clock == old(s.clock)
    ensures (s.cases, s.inputs, s.assignments, s.axisStates, s.tensions, s.thresholds, s.archetypes) ==
      old((s.cases, s.inputs, s.assignments, s.axisStates, s.tensions, s.thresholds, s.archetypes))
    ensures go ==> AppendedSoFar(steps, PatternStorable, i + 1, before, s.patterns, first, s.nextId, c)
    ensures !go ==> RunAppends(steps, PatternStorable, false, before, s.patterns, first, c)
  {
    go := SavePatternStep(s, c, steps[i]);
    AppendAdvance(steps, PatternStorable, i, before, old(s.patterns), s.patterns, first, old(s.nextId), s.nextId, c, go);
  }

  /** The saving loop of `analyze_patterns`: one `add_pattern` per element,
      given what each element evaluates to. */
  method SavePatterns(s: Store, c: int, steps: seq<Step<PatternData>>) returns (ok: bool)
    requires s.Valid()
    modifies s
    ensures s.Valid() && s.clock == old(s.clock)
    ensures RunAppends(steps, PatternStorable, ok, old(s.patterns), s.patterns, old(s.nextId), c)
    ensures s.Snapshot() == old(s.Snapshot()).(patterns := s.patterns)
  {
    var i := 0;
    ok := true;
    while ok && i < |steps|
      invariant s.Valid() && s.clock == old(s.clock)
      invariant ok ==> AppendedSoFar(steps, PatternStorable, i, old(s.patterns), s.patterns, old(s.nextId), s.nextId, c)
      invariant !ok ==> RunAppends(steps, PatternStorable, false, old(s.patterns), s.patterns, old(s.nextId), c)
      invariant (s.cases, s.inputs, s.assignments, s.axisStates, s.tensions, s.thresholds, s.archetypes) ==
        old((s.cases, s.inputs, s.assignments, s.axisStates, s.tensions, s.thresholds, s.archetypes))
      decreases |steps| - i, ok
    {
      ok := SavePatternAt(s, c, steps, i, old(s.patterns), old(s.nextId));
      if ok {
        i := i + 1;
      }
    }
    if ok {
      DoneSteps(steps, PatternStorable, old(s.patterns), s.patterns, old(s.nextId), s.nextId, c);
    }
  }

  /** `POST /api/cases/<id>/analyze/patterns`: the plan's error with
      nothing written, or the run of saves over the batch, which is also the
      response on success. */
  method AnalyzePatterns(s: Store, c: int, body: Json, env: Env, reply: Option<string>) returns (r: Outcome<Json>)
    requires s.Valid()
    modifies s
    ensures s.Valid() && s.clock == old(s.clock)
    ensures var plan := PatternsPlan(body, |old(s.Snapshot()).CaseInputs(c)| > 0, env, reply);
      if plan.Failure? then
        r == plan && s.Snapshot() == old(s.Snapshot())
      else
        (r == plan || r == Failure(Internal)) &&
        RunAppends(PatternSteps(plan.value.items), PatternStorable, r.Success?, old(s.patterns), s.patterns, old(s.nextId), c) &&
        s.Snapshot() == old(s.Snapshot()).(patterns := s.patterns)
  {
    var plan := PatternsPlan(body, |s.Snapshot().CaseInputs(c)| > 0, env, reply);
    if plan.Failure? {
      return plan;
    }
    var ok := SavePatterns(s, c, PatternSteps(plan.value.items));
    r := if ok then plan else Failure(Internal);
  }

  /** A run that got through appends exactly one pattern per element of the
      batch, in order, each with that element's fields or their defaults. */
  lemma PatternsResult(before: seq<Row<PatternData>>, items: seq<Json>, after: seq<Row<PatternData>>,
                       first: nat, c: int)
    requires RunAppends(PatternSteps(items), PatternStorable, true, before, after, first, c)
    ensures var saved := Saves(PatternSteps(items));
      |saved| == |items| && after == before + Stamp(first, c, saved) &&
      forall i :: 0 <= i < |items| ==> PatternStep(items[i]) == Save(saved[i])
  {
    var steps := PatternSteps(items);
    assert forall i :: 0 <= i < |steps| ==> steps[i] == PatternStep(items[i]);
    PassesAllSave(steps, PatternStorable);
    SavedEach(steps, |steps|);
  }

  // ------------------------------------------------------------- axis links

  /** What the search for a pattern finds: the first pattern whose
      description matches, none, or an element on which `in` raises. */
  datatype PatternMatch = Found(row: Row<PatternData>) | NotFound | Raised

  /** The generator's condition: `p['description'] in pd or pd in p['description']`. */
  predicate Matches(p: Row<PatternData>, pd: Json) {
    Contains(p.data.description, pd) == Some(true) ||
    (Contains(p.data.description, pd) == Some(false) && Contains(pd, p.data.description) == Some(true))
  }

  /** The condition evaluates to false without raising. */
  predicate Misses(p: Row<PatternData>, pd: Json) {
    Contains(p.data.description, pd) == Some(false) && Contains(pd, p.data.description) == Some(false)
  }

  /** `next((p for p in patterns if ...), None)`. */
  function FirstMatch(pd: Json, patterns: seq<Row<PatternData>>): (r: PatternMatch)
    ensures r.Found? ==> r.row in patterns
    ensures r.Found? ==>
      exists i :: 0 <= i < |patterns| && patterns[i] == r.row && Matches(r.row, pd) &&
        forall j :: 0 <= j < i ==> Misses(patterns[j], pd)
    ensures r.NotFound? <==> forall i :: 0 <= i < |patterns| ==> Misses(patterns[i], pd)
    ensures r.Raised? ==> exists i :: 0 <= i < |patterns| && !Matches(patterns[i], pd) && !Misses(patterns[i], pd)
    decreases |patterns|
  {
    if |patterns| == 0 then NotFound
    else
      var p := patterns[0];
      assert forall i :: 1 <= i < |patterns| ==> patterns[1..][i - 1] == patterns[i];
      match Contains(p.data.description, pd)
      case None => Raised
      case Some(true) => Found(p)
      case Some(false) =>
        match Contains(pd, p.data.description)
        case None => Raised
        case Some(true) => Found(p)
        case Some(false) => FirstMatch(pd, patterns[1..])
  }

  /** With text on both sides the search never raises, and what it finds is
      the first pattern whose description contains, or is contained in, the
      text the model gave. */
  lemma FirstMatchText(pd: string, patterns: seq<Row<PatternData>>)
    requires forall p :: p in patterns ==> p.data.description.JString?
    ensures !FirstMatch(JString(pd), patterns).Raised?
    ensures FirstMatch(JString(pd), patterns).Found? ==>
      var d := FirstMatch(JString(pd), patterns).row.data.description.s;
      IsSubstring(d, pd) || IsSubstring(pd, d)
    ensures FirstMatch(JString(pd), patterns).NotFound? <==>
      forall p :: p in patterns ==> !IsSubstring(p.data.description.s, pd) && !IsSubstring(pd, p.data.description.s)
  {
    var r := FirstMatch(JString(pd), patterns);
    forall i | 0 <= i < |patterns| ensures Matches(patterns[i], JString(pd)) || Misses(patterns[i], JString(pd)) {
      assert patterns[i] in patterns;
    }
    if r.NotFound? {
      forall p | p in patterns
        ensures !IsSubstring(p.data.description.s, pd) && !IsSubstring(pd, p.data.description.s)
      {
        var i :| 0 <= i < |patterns| && patterns[i] == p;
        assert Misses(patterns[i], JString(pd));
      }
    }
  }

  /** One element `a` of the reply: the pattern it names by description, and
      `save_axis_assignment(case_id, pid, a['axis_name'], a['justification'])`
      when one is found. The search reads `a['pattern_description']` once it
      looks at a pattern, so with no patterns nothing is read. */
  function LinkStep(a: Json, patterns: seq<Row<PatternData>>): (r: Step<AssignmentData>)
    ensures r.Save? ==> exists p :: p in patterns && PatternIdMatches(p, r.record.patternId)
    ensures r.Save? ==> Subscript(a, "axis_name") == Some(r.record.axisName) &&
                        Subscript(a, "justification") == Some(r.record.justification)
    ensures |patterns| > 0 && Subscript(a, "pattern_description").None? ==> r.Raise?
  {
    if |patterns| == 0 then Skip
    else
      match Subscript(a, "pattern_description")
      case None => Raise
      case Some(pd) =>
        match FirstMatch(pd, patterns)
        case Raised => Raise
        case NotFound => Skip
        case Found(p) =>
          if p.id == 0 then Skip
          else
            match Subscript(a, "axis_name")
            case None => Raise
            case Some(name) =>
              match Subscript(a, "justification")
              case None => Raise
              case Some(just) => Save(AssignmentData(JNumber(p.id as real), name, just))
  }

  function LinkSteps(items: seq<Json>, patterns: seq<Row<PatternData>>): seq<Step<AssignmentData>> {
    seq(|items|, i requires 0 <= i < |items| => LinkStep(items[i], patterns))
  }

  predicate AssignmentStorable(d: AssignmentData) { d.Storable() }

  /** Everything `analyze_link_axes` does before its loop: the mode (which
      only picks the client), the patterns gate, the prompt file, the call,
      `json.loads`, `.get('assignments', result_json)` and `for a in ...`. */
  function LinkPlan(body: Json, hasPatterns: bool, env: Env, reply: Option<string>): (r: Outcome<Json>)
    ensures r.Success? ==> Iterate(r.value).Some?
    ensures r.Failure? ==> r.error in {Internal, NoPatterns, MalformedReply}
  {
    if IsCloud(body).None? then Failure(Internal)
    else if !hasPatterns then Failure(NoPatterns)
    else if LinkPrompt !in env.promptFiles then Failure(Internal)
    else
      match Decode(env, reply)
      case Failure(e) => Failure(e)
      case Success(v) =>
        match Unwrap(v, "assignments")
        case Failure(e) => Failure(e)
        case Success(a) => if Iterate(a).None? then Failure(Internal) else Success(a)
  }

  /** The request body must be a dict (there is no `or {}` here); a case
      without patterns is refused before anything else is read. */
  lemma LinkGate(body: Json, env: Env, reply: Option<string>, env': Env, reply': Option<string>)
    ensures body.JObject? ==> LinkPlan(body, false, env, reply) == Failure(NoPatterns)
    ensures !body.JObject? ==> LinkPlan(body, false, env, reply) == Failure(Internal)
    ensures LinkPlan(body, false, env, reply) == LinkPlan(body, false, env', reply')
  {
  }

  /** A reply that parses to a dict with a list under `assignments`, or to a
      dict without that key (whose keys are then iterated), passes the plan. */
  lemma LinkPlanShapes(body: Json, env: Env, text: string, v: Json)
    requires body.JObject? && LinkPrompt in env.promptFiles && env.loads(text) == Some(v)
    ensures !v.JObject? ==> LinkPlan(body, true, env, Some(text)) == Failure(Internal)
    ensures v.JObject? && Lookup(v.fields, "assignments").None? ==> LinkPlan(body, true, env, Some(text)) == Success(v)
    ensures v.JObject? && Lookup(v.fields, "assignments").Some? && Lookup(v.fields, "assignments").value.JList? ==>
      LinkPlan(body, true, env, Some(text)) == Success(Lookup(v.fields, "assignments").value)
  {
  }

  /** One element of the loop: it raises, is skipped, or its
      `save_axis_assignment` call raises or appends a row. */
  method SaveAssignmentStep(s: Store, c: int, st: Step<AssignmentData>) returns (go: bool)
    requires s.Valid()
    modifies s
    ensures s.Valid() && s.clock == old(s.clock)
    ensures s.cases == old(s.cases) && s.inputs == old(s.inputs) && s.patterns == old(s.patterns) &&
      s.axisStates == old(s.axisStates) && s.tensions == old(s.tensions) &&
      s.thresholds == old(s.thresholds) && s.archetypes == old(s.archetypes)
    ensures go <==> Passes(st, AssignmentStorable)
    ensures s.assignments == if go && st.Save? then old(s.assignments) + [Row(old(s.nextId), c, st.record)] else old(s.assignments)
    ensures s.nextId == if go && st.Save? then old(s.nextId) + 1 else old(s.nextId)
  {
    match st
    case Skip => go := true;
    case Raise => go := false;
    case Save(d) =>
      var id := s.SaveAxisAssignment(c, d.patternId, d.axisName, d.justification);
      go := id.Some?;
  }

  /** One turn of the loop, stated over the run so far. */
  method SaveAssignmentAt(s: Store, c: int, steps: seq<Step<AssignmentData>>, i: nat,
                          ghost before: seq<Row<AssignmentData>>, ghost first: nat) returns (go: bool)
    requires s.Valid() && i < |steps| && AppendedSoFar(steps, AssignmentStorable, i, before, s.assignments, first, s.nextId, c)
    modifies s
    ensures s.Valid() && s.clock == old(s.clock)
    ensures (s.cases, s.inputs, s.patterns, s.axisStates, s.tensions, s.thresholds, s.archetypes) ==
      old((s.cases, s.inputs, s.patterns, s.axisStates, s.tensions, s.thresholds, s.archetypes))
    ensures go ==> AppendedSoFar(steps, AssignmentStorable, i + 1, before, s.assignments, first, s.nextId, c)
    ensures !go ==> RunAppends(steps, AssignmentStorable, false, before, s.assignments, first, c)
  {
    go := SaveAssignmentStep(s, c, steps[i]);
    AppendAdvance(steps, AssignmentStorable, i, before, old(s.assignments), s.assignments, first, old(s.nextId), s.nextId, c, go);
  }

  /** The loop of `analyze_link_axes`: one `save_axis_assignment` per element
      that names a pattern. */
  method SaveAssignments(s: Store, c: int, steps: seq<Step<AssignmentData>>) returns (ok: bool)
    requires s.Valid()
    modifies s
    ensures s.Valid() && s.clock == old(s.clock)
    ensures RunAppends(steps, AssignmentStorable, ok, old(s.assignments), s.assignments, old(s.nextId), c)
    ensures s.Snapshot() == old(s.Snapshot()).(assignments := s.assignments)
  {
    var i := 0;
    ok := true;
    while ok && i < |steps|
      invariant s.Valid() && s.clock == old(s.clock)
      invariant ok ==> AppendedSoFar(steps, AssignmentStorable, i, old(s.assignments), s.assignments, old(s.nextId), s.nextId, c)
      invariant !ok ==> RunAppends(steps, AssignmentStorable, false, old(s.assignments), s.assignments, old(s.nextId), c)
      invariant (s.cases, s.inputs, s.patterns, s.axisStates, s.tensions, s.thresholds, s.archetypes) ==
        old((s.cases, s.inputs, s.patterns, s.axisStates, s.tensions, s.thresholds, s.archetypes))
      decreases |steps| - i, ok
    {
      ok := SaveAssignmentAt(s, c, steps, i, old(s.assignments), old(s.nextId));
      if ok {
        i := i + 1;
      }
    }
    if ok {
      DoneSteps(steps, AssignmentStorable, old(s.assignments), s.assignments, old(s.nextId), s.nextId, c);
    }
  }

  /** `POST /api/cases/<id>/analyze/link_axes`. */
  method AnalyzeLinkAxes(s: Store, c: int, body: Json, env: Env, reply: Option<string>) returns (r: Outcome<Json>)
    requires s.Valid()
    modifies s
    ensures s.Valid() && s.clock == old(s.clock)
    ensures var plan := LinkPlan(body, |old(s.Snapshot()).CasePatterns(c)| > 0, env, reply);
      if plan.Failure? then
        r == plan && s.Snapshot() == old(s.Snapshot())
      else
        (r == plan || r == Failure(Internal)) &&
        RunAppends(LinkSteps(Iterate(plan.value).value, old(s.Snapshot()).CasePatterns(c)), AssignmentStorable,
                   r.Success?, old(s.assignments), s.assignments, old(s.nextId), c) &&
        s.Snapshot() == old(s.Snapshot()).(assignments := s.assignments)
  {
    var patterns := s.Snapshot().CasePatterns(c);
    var plan := LinkPlan(body, |patterns| > 0, env, reply);
    if plan.Failure? {
      return plan;
    }
    var ok := SaveAssignments(s, c, LinkSteps(Iterate(plan.value).value, patterns));
    r := if ok then plan else Failure(Internal);
  }

  /** Every record the loop hands to `save_axis_assignment` names a pattern
      of the case. */
  lemma LinkSavesNamePatterns(items: seq<Json>, patterns: seq<Row<PatternData>>, k: nat)
    requires k <= |items|
    ensures forall d :: d in SavedBefore(LinkSteps(items, patterns), k) ==>
      exists p :: p in patterns && PatternIdMatches(p, d.patternId)
  {
    var steps := LinkSteps(items, patterns);
    SavedFrom(steps, k);
    forall d: AssignmentData | d in SavedBefore(steps, k) ensures exists p :: p in patterns && PatternIdMatches(p, d.patternId) {
      var i :| 0 <= i < k && steps[i] == Save(d);
      assert LinkStep(items[i], patterns) == Save(d);
    }
  }

  /** Every assignment the loop writes names a pattern of the case, so the
      join of `get_axis_assignments` over a pattern table holding the case's
      patterns returns it, however far the loop got. */
  lemma LinkedRowsJoin(items: seq<Json>, patterns: seq<Row<PatternData>>, k: nat,
                       assignments: seq<Row<AssignmentData>>, allPatterns: seq<Row<PatternData>>, first: nat, c: int)
    requires k <= |items|
    requires forall p :: p in patterns ==> p in allPatterns
    requires forall a :: a in Stamp(first, c, SavedBefore(LinkSteps(items, patterns), k)) ==> a in assignments
    ensures forall a :: a in Stamp(first, c, SavedBefore(LinkSteps(items, patterns), k)) ==>
      exists j :: j in AxisAssignmentsOf(assignments, allPatterns, c) && j.row == a
  {
    var saved := SavedBefore(LinkSteps(items, patterns), k);
    var rows := Stamp(first, c, saved);
    LinkSavesNamePatterns(items, patterns, k);
    AxisAssignmentsJoin(assignments, allPatterns, c);
    forall a | a in rows ensures exists j :: j in AxisAssignmentsOf(assignments, allPatterns, c) && j.row == a {
      var n :| 0 <= n < |rows| && rows[n] == a;
      assert saved[n] in saved;
      var p :| p in patterns && PatternIdMatches(p, a.data.patternId);
      assert p in allPatterns;
    }
  }

  // ------------------------------------------------------------ axis states

  /** Everything `analyze_dimensions` does before its loop: the mode, the
      gate on the joined assignments, the prompt file, the call,
      `json.loads`, `.get('axis_states', result_json)`, the dict-to-list
      wrap and `for s in states`. */
  function DimensionsPlan(body: Json, hasAssignments: bool, env: Env, reply: Option<string>): (r: Outcome<Json>)
    ensures r.Success? ==> Iterate(r.value).Some? && !r.value.JObject?
    ensures r.Failure? ==> r.error in {Internal, NoAssignments, MalformedReply}
  {
    if IsCloud(body).None? then Failure(Internal)
    else if !hasAssignments then Failure(NoAssignments)
    else if ClassificationPrompt !in env.promptFiles then Failure(Internal)
    else
      match Decode(env, reply)
      case Failure(e) => Failure(e)
      case Success(v) =>
        match Unwrap(v, "axis_states")
        case Failure(e) => Failure(e)
        case Success(states) =>
          var list := AsList(states);
          if Iterate(list).None? then Failure(Internal) else Success(list)
  }

  lemma DimensionsGate(body: Json, env: Env, reply: Option<string>, env': Env, reply': Option<string>)
    ensures body.JObject? ==> DimensionsPlan(body, false, env, reply) == Failure(NoAssignments)
    ensures DimensionsPlan(body, false, env, reply) == DimensionsPlan(body, false, env', reply')
  {
  }

  /** A single state object in the reply, bare or under `axis_states`, is
      handled as a list of one. */
  lemma DimensionsSingleState(body: Json, env: Env, text: string, st: Json)
    requires body.JObject? && ClassificationPrompt in env.promptFiles && st.JObject?
    ensures env.loads(text) == Some(JObject([("axis_states", st)])) ==>
      DimensionsPlan(body, true, env, Some(text)) == Success(JList([st]))
    ensures env.loads(text) == Some(st) && Lookup(st.fields, "axis_states").None? ==>
      DimensionsPlan(body, true, env, Some(text)) == Success(JList([st]))
  {
  }

  /** `db.save_axis_state(case_id, s['axis_name'], s['status'], s['value'], s['justification'])`:
      the four subscripts are evaluated before the call. */
  function AxisStep(a: Json): (r: Step<AxisStateData>)
    ensures !r.Skip?
    ensures r.Raise? <==>
      Subscript(a, "axis_name").None? || Subscript(a, "status").None? ||
      Subscript(a, "value").None? || Subscript(a, "justification").None?
    ensures r.Save? ==>
      Subscript(a, "axis_name") == Some(r.record.axisName) && Subscript(a, "status") == Some(r.record.status) &&
      Subscript(a, "value") == Some(r.record.value) && Subscript(a, "justification") == Some(r.record.justification)
  {
    match Subscript(a, "axis_name")
    case None => Raise
    case Some(name) =>
      match Subscript(a, "status")
      case None => Raise
      case Some(status) =>
        match Subscript(a, "value")
        case None => Raise
        case Some(value) =>
          match Subscript(a, "justification")
          case None => Raise
          case Some(just) => Save(AxisStateData(name, status, value, just))
  }

  function AxisSteps(items: seq<Json>): seq<Step<AxisStateData>> {
    seq(|items|, i requires 0 <= i < |items| => AxisStep(items[i]))
  }

  predicate AxisStorable(d: AxisStateData) { d.Storable() }

  /** The loop over `steps` replaced, one `save_axis_state` after another,
      the states of case `c` in a table that held `before`: all of them, or
      those before the element where it stopped. */
  ghost predicate RunReplaces(steps: seq<Step<AxisStateData>>, ok: bool, before: seq<Row<AxisStateData>>,
                              after: seq<Row<AxisStateData>>, first: nat, c: int)
  {
    (ok <==> AllPass(steps, AxisStorable)) &&
    (ok ==> after == ReplaceAll(before, Stamp(first, c, Saves(steps)))) &&
    (!ok ==> exists k :: StopsAt(steps, AxisStorable, k) && after == ReplaceAll(before, Stamp(first, c, SavedBefore(steps, k))))
  }

  /** The first `i` elements passed: the counter moved past the states they
      saved, and the table holds `before` with those states replacing. */
  ghost predicate ReplacedSoFar(steps: seq<Step<AxisStateData>>, i: nat, before: seq<Row<AxisStateData>>,
                                rows: seq<Row<AxisStateData>>, first: nat, next: int, c: int)
  {
    i <= |steps| && PassesBefore(steps, AxisStorable, i) && next == first + |SavedBefore(steps, i)| &&
    rows == ReplaceAll(before, Stamp(first, c, SavedBefore(steps, i)))
  }

  /** The replacing loop got through every element. */
  lemma ReplaceDone(steps: seq<Step<AxisStateData>>, before: seq<Row<AxisStateData>>, rows: seq<Row<AxisStateData>>,
                    first: nat, next: int, c: int)
    requires ReplacedSoFar(steps, |steps|, before, rows, first, next, c)
    ensures RunReplaces(steps, true, before, rows, first, c)
  {
    StopsSomewhere(steps, AxisStorable);
  }

  /** Saving one more state extends the run by one replacement. */
  lemma ReplaceSaved(before: seq<Row<AxisStateData>>, first: nat, c: int, saved: seq<AxisStateData>,
                     d: AxisStateData, rows: seq<Row<AxisStateData>>, rows': seq<Row<AxisStateData>>)
    requires rows == ReplaceAll(before, Stamp(first, c, saved))
    requires rows' == ReplaceAxisState(rows, Row(first + |saved|, c, d))
    ensures rows' == ReplaceAll(before, Stamp(first, c, saved + [d]))
  {
    StampSnoc(first, c, saved, d);
    ReplaceAllSnoc(before, Stamp(first, c, saved), Row(first + |saved|, c, d));
  }

  /** One passing turn of the replacing loop. */
  lemma ReplaceGo(steps: seq<Step<AxisStateData>>, i: nat, before: seq<Row<AxisStateData>>,
                  rows: seq<Row<AxisStateData>>, rows': seq<Row<AxisStateData>>, first: nat, id: int, id': int, c: int)
    requires i < |steps| && ReplacedSoFar(steps, i, before, rows, first, id, c) && Passes(steps[i], AxisStorable)
    requires rows' == if steps[i].Save? then ReplaceAxisState(rows, Row(id, c, steps[i].record)) else rows
    requires id' == if steps[i].Save? then id + 1 else id
    ensures ReplacedSoFar(steps, i + 1, before, rows', first, id', c)
  {
    var saved := SavedBefore(steps, i);
    PassesNext(steps, AxisStorable, i);
    SavedNext(steps, i);
    if steps[i].Save? {
      ReplaceSaved(before, first, c, saved, steps[i].record, rows, rows');
    }
  }

  /** The turn at which the replacing loop stops. */
  lemma ReplaceStop(steps: seq<Step<AxisStateData>>, i: nat, before: seq<Row<AxisStateData>>,
                    rows: seq<Row<AxisStateData>>, first: nat, c: int)
    requires i < |steps| && PassesBefore(steps, AxisStorable, i) && !Passes(steps[i], AxisStorable)
    requires rows == ReplaceAll(before, Stamp(first, c, SavedBefore(steps, i)))
    ensures RunReplaces(steps, false, before, rows, first, c)
  {
    assert StopsAt(steps, AxisStorable, i);
    StopsSomewhere(steps, AxisStorable);
  }

  /** One turn of the replacing loop: the element at `i` either passes,
      replacing its axis's state when it saves one, or stops the loop. */
  lemma ReplaceAdvance(steps: seq<Step<AxisStateData>>, i: nat, before: seq<Row<AxisStateData>>,
                       rows: seq<Row<AxisStateData>>, rows': seq<Row<AxisStateData>>, first: nat, id: int, id': int,
                       c: int, go: bool)
    requires i < |steps| && ReplacedSoFar(steps, i, before, rows, first, id, c)
    requires go <==> Passes(steps[i], AxisStorable)
    requires rows' == if go && steps[i].Save? then ReplaceAxisState(rows, Row(id, c, steps[i].record)) else rows
    requires id' == if go && steps[i].Save? then id + 1 else id
    ensures go ==> ReplacedSoFar(steps, i + 1, before, rows', first, id', c)
    ensures !go ==> RunReplaces(steps, false, before, rows', first, c)
  {
    if go {
      ReplaceGo(steps, i, before, rows, rows', first, id, id', c);
    } else {
      ReplaceStop(steps, i, before, rows', first, c);
    }
  }

  /** One element of the loop: it raises, or its `save_axis_state` call
      raises or replaces the state of its axis. */
  method SaveAxisStateStep(s: Store, c: int, st: Step<AxisStateData>) returns (go: bool)
    requires s.Valid()
    modifies s
    ensures s.Valid() && s.clock == old(s.clock)
    ensures s.cases == old(s.cases) && s.inputs == old(s.inputs) && s.patterns == old(s.patterns) &&
      s.assignments == old(s.assignments) && s.tensions == old(s.tensions) &&
      s.thresholds == old(s.thresholds) && s.archetypes == old(s.archetypes)
    ensures go <==> Passes(st, AxisStorable)
    ensures s.axisStates == if go && st.Save? then ReplaceAxisState(old(s.axisStates), Row(old(s.nextId), c, st.record)) else old(s.axisStates)
    ensures s.nextId == if go && st.Save? then old(s.nextId) + 1 else old(s.nextId)
  {
    match st
    case Skip => go := true;
    case Raise => go := false;
    case Save(d) => go := s.SaveAxisState(c, d.axisName, d.status, d.value, d.justification);
  }

  /** One turn of the loop, stated over the run so far. */
  method SaveAxisStateAt(s: Store, c: int, steps: seq<Step<AxisStateData>>, i: nat,
                         ghost before: seq<Row<AxisStateData>>, ghost first: nat) returns (go: bool)
    requires s.Valid() && i < |steps| && ReplacedSoFar(steps, i, before, s.axisStates, first, s.nextId, c)
    modifies s
    ensures s.Valid() && s.clock == old(s.clock)
    ensures (s.cases, s.inputs, s.patterns, s.assignments, s.tensions, s.thresholds, s.archetypes) ==
      old((s.cases, s.inputs, s.patterns, s.assignments, s.tensions, s.thresholds, s.archetypes))
    ensures go ==> ReplacedSoFar(steps, i + 1, before, s.axisStates, first, s.nextId, c)
    ensures !go ==> RunReplaces(steps, false, before, s.axisStates, first, c)
  {
    go := SaveAxisStateStep(s, c, steps[i]);
    ReplaceAdvance(steps, i, before, old(s.axisStates), s.axisStates, first, old(s.nextId), s.nextId, c, go);
  }

  /** The loop of `analyze_dimensions`: one `save_axis_state` per element. */
  method SaveAxisStates(s: Store, c: int, steps: seq<Step<AxisStateData>>) returns (ok: bool)
    requires s.Valid()
    modifies s
    ensures s.Valid() && s.clock == old(s.clock)
    ensures RunReplaces(steps, ok, old(s.axisStates), s.axisStates, old(s.nextId), c)
    ensures s.Snapshot() == old(s.Snapshot()).(axisStates := s.axisStates)
  {
    var i := 0;
    ok := true;
    while ok && i < |steps|
      invariant s.Valid() && s.clock == old(s.clock)
      invariant ok ==> ReplacedSoFar(steps, i, old(s.axisStates), s.axisStates, old(s.nextId), s.nextId, c)
      invariant !ok ==> RunReplaces(steps, false, old(s.axisStates), s.axisStates, old(s.nextId), c)
      invariant (s.cases, s.inputs, s.patterns, s.assignments, s.tensions, s.thresholds, s.archetypes) ==
        old((s.cases, s.inputs, s.patterns, s.assignments, s.tensions, s.thresholds, s.archetypes))
      decreases |steps| - i, ok
    {
      ok := SaveAxisStateAt(s, c, steps, i, old(s.axisStates), old(s.nextId));
      if ok {
        i := i + 1;
      }
    }
    if ok {
      ReplaceDone(steps, old(s.axisStates), s.axisStates, old(s.nextId), s.nextId, c);
    }
  }

  /** `POST /api/cases/<id>/analyze/dimensions`. */
  method AnalyzeDimensions(s: Store, c: int, body: Json, env: Env, reply: Option<string>) returns (r: Outcome<Json>)
    requires s.Valid()
    modifies s
    ensures s.Valid() && s.clock == old(s.clock)
    ensures var plan := DimensionsPlan(body, |old(s.Snapshot()).AxisAssignments(c)| > 0, env, reply);
      if plan.Failure? then
        r == plan && s.Snapshot() == old(s.Snapshot())
      else
        (r == plan || r == Failure(Internal)) &&
        RunReplaces(AxisSteps(Iterate(plan.value).value), r.Success?, old(s.axisStates), s.axisStates, old(s.nextId), c) &&
        s.Snapshot() == old(s.Snapshot()).(axisStates := s.axisStates)
  {
    var plan := DimensionsPlan(body, |s.Snapshot().AxisAssignments(c)| > 0, env, reply);
    if plan.Failure? {
      return plan;
    }
    var ok := SaveAxisStates(s, c, AxisSteps(Iterate(plan.value).value));
    r := if ok then plan else Failure(Internal);
  }

  /** After a run of `save_axis_state` calls for case `c`, each axis of the
      case holds exactly the last state saved for it in the run, or the
      states it had when the run saved none for it; other cases keep theirs. */
  lemma DimensionsResult(before: seq<Row<AxisStateData>>, first: nat, c: int, ds: seq<AxisStateData>, c': int, axis: Json)
    ensures var news := Stamp(first, c, ds);
      KeyRows(ReplaceAll(before, news), c', axis) ==
        if c' == c && LastWithKey(news, c, axis).Some? then [LastWithKey(news, c, axis).value]
        else KeyRows(before, c', axis)
  {
    var news := Stamp(first, c, ds);
    ReplaceAllSpec(before, news, c', axis);
    if c' != c {
      assert LastWithKey(news, c', axis).None?;
    }
  }

  // -------------------------------------------------------------- tensions

  /** Everything `analyze_tensions` does before it clears the case's
      tensions: the mode, the axis-states gate, the prompt file, the call,
      `json.loads`, `.get('tensions', result_json)` and the dict-to-list
      wrap. Iterating the result happens after the clear. */
  function TensionsPlan(body: Json, hasAxisStates: bool, env: Env, reply: Option<string>): (r: Outcome<Json>)
    ensures r.Success? ==> !r.value.JObject?
    ensures r.Failure? ==> r.error in {Internal, NoAxisStates, MalformedReply}
  {
    if IsCloud(body).None? then Failure(Internal)
    else if !hasAxisStates then Failure(NoAxisStates)
    else if TensionPrompt !in env.promptFiles then Failure(Internal)
    else
      match Decode(env, reply)
      case Failure(e) => Failure(e)
      case Success(v) =>
        match Unwrap(v, "tensions")
        case Failure(e) => Failure(e)
        case Success(t) => Success(AsList(t))
  }

  /** Without axis states the handler answers before it reads a prompt or a
      reply; a reply that does not decode is an error before the clear. */
  lemma TensionsGate(body: Json, env: Env, reply: Option<string>, env': Env, reply': Option<string>)
    ensures body.JObject? ==> TensionsPlan(body, false, env, reply) == Failure(NoAxisStates)
    ensures TensionsPlan(body, false, env, reply) == TensionsPlan(body, false, env', reply')
    ensures body.JObject? && TensionPrompt in env.promptFiles && reply.Some? && env.loads(reply.value).None? ==>
      TensionsPlan(body, true, env, reply) == Failure(MalformedReply)
  {
  }

  /** `db.save_tension(case_id, t['description'], t['type'], t['axes_involved'], t['severity'])`:
      the four subscripts are evaluated before the call, which stores
      `json.dumps(axes_involved)`. */
  function TensionStep(t: Json): (r: Step<TensionData>)
    ensures !r.Skip?
    ensures r.Raise? <==>
      Subscript(t, "description").None? || Subscript(t, "type").None? ||
      Subscript(t, "axes_involved").None? || Subscript(t, "severity").None?
    ensures r.Save? ==>
      Subscript(t, "description") == Some(r.record.description) && Subscript(t, "type") == Some(r.record.tensionType) &&
      Subscript(t, "axes_involved").Some? && r.record.axesInvolved == Dumped(Subscript(t, "axes_involved").value) &&
      Subscript(t, "severity") == Some(r.record.severity)
  {
    match Subscript(t, "description")
    case None => Raise
    case Some(description) =>
      match Subscript(t, "type")
      case None => Raise
      case Some(kind) =>
        match Subscript(t, "axes_involved")
        case None => Raise
        case Some(axes) =>
          match Subscript(t, "severity")
          case None => Raise
          case Some(severity) => Save(TensionData(description, kind, Dumped(axes), severity))
  }

  function TensionSteps(items: seq<Json>): seq<Step<TensionData>> {
    seq(|items|, i requires 0 <= i < |items| => TensionStep(items[i]))
  }

  /** `json.dumps` of a decoded value never fails, so the records the loop
      builds always hold dumped text. */
  predicate TensionStorable(d: TensionData) { d.Storable() && d.axesInvolved.Dumped? }

  /** One element of the loop: it raises, or its `save_tension` call raises
      or appends a row. */
  method SaveTensionStep(s: Store, c: int, st: Step<TensionData>) returns (go: bool)
    requires s.Valid()
    modifies s
    ensures s.Valid() && s.clock == old(s.clock)
    ensures (s.cases, s.inputs, s.patterns, s.assignments, s.axisStates, s.thresholds, s.archetypes) ==
      old((s.cases, s.inputs, s.patterns, s.assignments, s.axisStates, s.thresholds, s.archetypes))
    ensures go <==> Passes(st, TensionStorable)
    ensures s.tensions == if go && st.Save? then old(s.tensions) + [Row(old(s.nextId), c, st.record)] else old(s.tensions)
    ensures s.nextId == if go && st.Save? then old(s.nextId) + 1 else old(s.nextId)
  {
    match st
    case Skip => go := true;
    case Raise => go := false;
    case Save(d) =>
      if d.axesInvolved.Dumped? {
        go := s.SaveTension(c, d.description, d.tensionType, d.axesInvolved.value, d.severity);
      } else {
        go := false;
      }
  }

  /** One turn of the loop, stated over the run so far. */
  method SaveTensionAt(s: Store, c: int, steps: seq<Step<TensionData>>, i: nat,
                       ghost before: seq<Row<TensionData>>, ghost first: nat) returns (go: bool)
    requires s.Valid() && i < |steps| && AppendedSoFar(steps, TensionStorable, i, before, s.tensions, first, s.nextId, c)
    modifies s
    ensures s.Valid() && s.clock == old(s.clock)
    ensures (s.cases, s.inputs, s.patterns, s.assignments, s.axisStates, s.thresholds, s.archetypes) ==
      old((s.cases, s.inputs, s.patterns, s.assignments, s.axisStates, s.thresholds, s.archetypes))
    ensures go ==> AppendedSoFar(steps, TensionStorable, i + 1, before, s.tensions, first, s.nextId, c)
    ensures !go ==> RunAppends(steps, TensionStorable, false, before, s.tensions, first, c)
  {
    go := SaveTensionStep(s, c, steps[i]);
    AppendAdvance(steps, TensionStorable, i, before, old(s.tensions), s.tensions, first, old(s.nextId), s.nextId, c, go);
  }

  /** The loop of `analyze_tensions`: one `save_tension` per element. */
  method SaveTensions(s: Store, c: int, steps: seq<Step<TensionData>>) returns (ok: bool)
    requires s.Valid()
    modifies s
    ensures s.Valid() && s.clock == old(s.clock)
    ensures RunAppends(steps, TensionStorable, ok, old(s.tensions), s.tensions, old(s.nextId), c)
    ensures s.Snapshot() == old(s.Snapshot()).(tensions := s.tensions)
  {
    var i := 0;
    ok := true;
    while ok && i < |steps|
      invariant s.Valid() && s.clock == old(s.clock)
      invariant ok ==> AppendedSoFar(steps, TensionStorable, i, old(s.tensions), s.tensions, old(s.nextId), s.nextId, c)
      invariant !ok ==> RunAppends(steps, TensionStorable, false, old(s.tensions), s.tensions, old(s.nextId), c)
      invariant (s.cases, s.inputs, s.patterns, s.assignments, s.axisStates, s.thresholds, s.archetypes) ==
        old((s.cases, s.inputs, s.patterns, s.assignments, s.axisStates, s.thresholds, s.archetypes))
      decreases |steps| - i, ok
    {
      ok := SaveTensionAt(s, c, steps, i, old(s.tensions), old(s.nextId));
      if ok {
        i := i + 1;
      }
    }
    if ok {
      DoneSteps(steps, TensionStorable, old(s.tensions), s.tensions, old(s.nextId), s.nextId, c);
    }
  }

  /** `POST /api/cases/<id>/analyze/tensions`: the plan's error with nothing
      written; otherwise the case's tensions are cleared, and then either
      `for t in tensions` raises at once or the run of saves starts from the
      cleared table. */
  method AnalyzeTensions(s: Store, c: int, body: Json, env: Env, reply: Option<string>) returns (r: Outcome<Json>)
    requires s.Valid()
    modifies s
    ensures s.Valid() && s.clock == old(s.clock)
    ensures var plan := TensionsPlan(body, |old(s.Snapshot()).AxisStates(c)| > 0, env, reply);
      if plan.Failure? then
        r == plan && s.Snapshot() == old(s.Snapshot())
      else if Iterate(plan.value).None? then
        r == Failure(Internal) && s.Snapshot() == old(s.Snapshot()).(tensions := WithoutCase(old(s.tensions), c))
      else
        (r == plan || r == Failure(Internal)) &&
        RunAppends(TensionSteps(Iterate(plan.value).value), TensionStorable, r.Success?,
                   WithoutCase(old(s.tensions), c), s.tensions, old(s.nextId), c) &&
        s.Snapshot() == old(s.Snapshot()).(tensions := s.tensions)
  {
    var plan := TensionsPlan(body, |s.Snapshot().AxisStates(c)| > 0, env, reply);
    if plan.Failure? {
      return plan;
    }
    s.ClearCaseTensions(c);
    var items := Iterate(plan.value);
    if items.None? {
      return Failure(Internal);
    }
    var ok := SaveTensions(s, c, TensionSteps(items.value));
    r := if ok then plan else Failure(Internal);
  }

  /** After a run that got through, the case's tensions are exactly the
      batch: one row per element, in order, each with that element's fields;
      other cases keep theirs. */
  lemma TensionsResult(before: seq<Row<TensionData>>, items: seq<Json>, after: seq<Row<TensionData>>,
                       first: nat, c: int, other: int)
    requires RunAppends(TensionSteps(items), TensionStorable, true, WithoutCase(before, c), after, first, c)
    ensures var saved := Saves(TensionSteps(items));
      |saved| == |items| && RowsOf(after, c) == Stamp(first, c, saved) &&
      forall i :: 0 <= i < |items| ==> TensionStep(items[i]) == Save(saved[i])
    ensures other != c ==> RowsOf(after, other) == RowsOf(before, other)
  {
    TensionsAllSaved(items);
    ClearedAppends(TensionSteps(items), TensionStorable, before, after, first, c, other);
  }

  /** A run that gets through the batch saves every tension, in order. */
  lemma TensionsAllSaved(items: seq<Json>)
    requires AllPass(TensionSteps(items), TensionStorable)
    ensures var saved := Saves(TensionSteps(items));
      |saved| == |items| && forall i :: 0 <= i < |items| ==> TensionStep(items[i]) == Save(saved[i])
  {
    var steps := TensionSteps(items);
    assert forall i :: 0 <= i < |steps| ==> steps[i] == TensionStep(items[i]);
    PassesAllSave(steps, TensionStorable);
    SavedEach(steps, |steps|);
  }

  /** A tension as `get_case_tensions_endpoint` returns it: the row with
      `axes_involved` decoded. */
  datatype TensionView = TensionView(row: Row<TensionData>, axesInvolved: Json)

  /** `GET /api/cases/<id>/tensions`: each of the case's tensions with
      `axes_involved` put through `json.loads`, or `[]` where that raises. */
  method TensionsEndpoint(s: Store, c: int) returns (r: seq<TensionView>)
    ensures var rows := s.Snapshot().CaseTensions(c);
      |r| == |rows| &&
      forall i :: 0 <= i < |rows| ==>
        r[i].row == rows[i] &&
        (rows[i].data.axesInvolved.Dumped? ==> r[i].axesInvolved == rows[i].data.axesInvolved.value) &&
        (rows[i].data.axesInvolved.Unreadable? ==> r[i].axesInvolved == JList([]))
  {
    var rows := s.Snapshot().CaseTensions(c);
    r := [];
    var i := 0;
    while i < |rows|
      invariant 0 <= i <= |rows| && |r| == i
      invariant forall k :: 0 <= k < i ==> r[k] == TensionView(rows[k], LoadsOr(rows[k].data.axesInvolved, JList([])))
    {
      r := r + [TensionView(rows[i], LoadsOr(rows[i].data.axesInvolved, JList([])))];
      i := i + 1;
    }
  }

  // ------------------------------------------------------------- threshold

  /** Everything `analyze_threshold` does before its DAO call: the mode, the
      axis-states gate, the prompt file, the call, `json.loads` and
      `.get('evaluation', result_json)`. Patterns and tensions only feed the
      prompt. */
  function ThresholdPlan(body: Json, hasAxisStates: bool, env: Env, reply: Option<string>): (r: Outcome<Json>)
    ensures r.Success? ==> hasAxisStates
    ensures r.Failure? ==> r.error in {Internal, NoAxisStates, MalformedReply}
  {
    if IsCloud(body).None? then Failure(Internal)
    else if !hasAxisStates then Failure(NoAxisStates)
    else if ThresholdPrompt !in env.promptFiles then Failure(Internal)
    else
      match Decode(env, reply)
      case Failure(e) => Failure(e)
      case Success(v) => Unwrap(v, "evaluation")
  }

  lemma ThresholdGate(body: Json, env: Env, reply: Option<string>, env': Env, reply': Option<string>)
    ensures body.JObject? ==> ThresholdPlan(body, false, env, reply) == Failure(NoAxisStates)
    ensures ThresholdPlan(body, false, env, reply) == ThresholdPlan(body, false, env', reply')
  {
  }

  /** `eval_data['score']`, `eval_data['status']`, `eval_data['reasoning']`:
      the status is the model's, verbatim, whatever the score. */
  function ThresholdRecord(v: Json, createdAt: nat): (r: Option<ThresholdData>)
    ensures r.Some? <==> Subscript(v, "score").Some? && Subscript(v, "status").Some? && Subscript(v, "reasoning").Some?
    ensures r.Some? ==>
      Subscript(v, "score") == Some(r.value.score) && Subscript(v, "status") == Some(r.value.status) &&
      Subscript(v, "reasoning") == Some(r.value.reasoning) && r.value.createdAt == createdAt
  {
    match Subscript(v, "score")
    case None => None
    case Some(score) =>
      match Subscript(v, "status")
      case None => None
      case Some(status) =>
        match Subscript(v, "reasoning")
        case None => None
        case Some(reasoning) => Some(ThresholdData(score, status, reasoning, createdAt))
  }

  /** `POST /api/cases/<id>/analyze/threshold`: on success the case holds
      exactly the new evaluation, which the getter returns. */
  method AnalyzeThreshold(s: Store, c: int, body: Json, env: Env, reply: Option<string>) returns (r: Outcome<Json>)
    requires s.Valid()
    modifies s
    ensures s.Valid()
    ensures var plan := ThresholdPlan(body, |old(s.Snapshot()).AxisStates(c)| > 0, env, reply);
      if plan.Failure? then
        r == plan && s.Snapshot() == old(s.Snapshot())
      else
        var d := ThresholdRecord(plan.value, old(s.clock));
        if d.Some? && d.value.Storable() then
          r == plan &&
          s.Snapshot() == old(s.Snapshot()).(thresholds := ReplaceForCase(old(s.thresholds), Row(old(s.nextId), c, d.value))) &&
          s.Snapshot().ThresholdEvaluation(c) == Some(Row(old(s.nextId), c, d.value))
        else
          r == Failure(Internal) && s.Snapshot() == old(s.Snapshot())
  {
    var plan := ThresholdPlan(body, |s.Snapshot().AxisStates(c)| > 0, env, reply);
    if plan.Failure? {
      return plan;
    }
    var d := ThresholdRecord(plan.value, s.clock);
    if d.None? {
      return Failure(Internal);
    }
    var ok := s.SaveThresholdEvaluation(c, d.value.score, d.value.status, d.value.reasoning);
    if !ok {
      return Failure(Internal);
    }
    ReplaceForCaseSpec(old(s.thresholds), Row(old(s.nextId), c, d.value), c);
    r := plan;
  }

  // ------------------------------------------------------------- archetype

  /** Everything `analyze_archetype` does before its DAO call: the mode, the
      threshold gate (a fetched row is a non-empty dict), the prompt file,
      the call, `json.loads` and `.get('archetype', result_json)`. */
  function ArchetypePlan(body: Json, hasThreshold: bool, env: Env, reply: Option<string>): (r: Outcome<Json>)
    ensures r.Success? ==> hasThreshold
    ensures r.Failure? ==> r.error in {Internal, NoThreshold, MalformedReply}
  {
    if IsCloud(body).None? then Failure(Internal)
    else if !hasThreshold then Failure(NoThreshold)
    else if ArchetypePrompt !in env.promptFiles then Failure(Internal)
    else
      match Decode(env, reply)
      case Failure(e) => Failure(e)
      case Success(v) => Unwrap(v, "archetype")
  }

  lemma ArchetypeGate(body: Json, env: Env, reply: Option<string>, env': Env, reply': Option<string>)
    ensures body.JObject? ==> ArchetypePlan(body, false, env, reply) == Failure(NoThreshold)
    ensures ArchetypePlan(body, false, env, reply) == ArchetypePlan(body, false, env', reply')
  {
  }

  /** `arch_data['archetype_name']`, `['description']`, `['fit_score']` and
      `['key_traits']`, the last stored as `json.dumps` text. */
  function ArchetypeRecord(v: Json, createdAt: nat): (r: Option<ArchetypeData>)
    ensures r.Some? <==>
      Subscript(v, "archetype_name").Some? && Subscript(v, "description").Some? &&
      Subscript(v, "fit_score").Some? && Subscript(v, "key_traits").Some?
    ensures r.Some? ==>
      Subscript(v, "archetype_name") == Some(r.value.name) && Subscript(v, "description") == Some(r.value.description) &&
      Subscript(v, "fit_score") == Some(r.value.fitScore) &&
      Subscript(v, "key_traits").Some? && r.value.keyTraits == Dumped(Subscript(v, "key_traits").value) &&
      r.value.createdAt == createdAt
  {
    match Subscript(v, "archetype_name")
    case None => None
    case Some(name) =>
      match Subscript(v, "description")
      case None => None
      case Some(description) =>
        match Subscript(v, "fit_score")
        case None => None
        case Some(fit) =>
          match Subscript(v, "key_traits")
          case None => None
          case Some(traits) => Some(ArchetypeData(name, description, fit, Dumped(traits), createdAt))
  }

  /** `POST /api/cases/<id>/analyze/archetype`. */
  method AnalyzeArchetype(s: Store, c: int, body: Json, env: Env, reply: Option<string>) returns (r: Outcome<Json>)
    requires s.Valid()
    modifies s
    ensures s.Valid()
    ensures var plan := ArchetypePlan(body, old(s.Snapshot()).ThresholdEvaluation(c).Some?, env, reply);
      if plan.Failure? then
        r == plan && s.Snapshot() == old(s.Snapshot())
      else
        var d := ArchetypeRecord(plan.value, old(s.clock));
        if d.Some? && d.value.Storable() then
          r == plan &&
          s.Snapshot() == old(s.Snapshot()).(archetypes := ReplaceForCase(old(s.archetypes), Row(old(s.nextId), c, d.value)))
        else
          r == Failure(Internal) && s.Snapshot() == old(s.Snapshot())
  {
    var plan := ArchetypePlan(body, s.Snapshot().ThresholdEvaluation(c).Some?, env, reply);
    if plan.Failure? {
      return plan;
    }
    var d := ArchetypeRecord(plan.value, s.clock);
    if d.None? {
      return Failure(Internal);
    }
    var k := d.value.keyTraits.value;
    var ok := s.SaveArchetypeAssignment(c, d.value.name, d.value.description, d.value.fitScore, k);
    if !ok {
      return Failure(Internal);
    }
    r := plan;
  }

  /** An archetype as `get_archetype_endpoint` returns it: the row with
      `key_traits` decoded. */
  datatype ArchetypeView = ArchetypeView(row: Row<ArchetypeData>, keyTraits: Json)

  /** `GET /api/cases/<id>/archetype`: null without a row; otherwise the row
      with `key_traits` put through `json.loads`, or `[]` where that raises. */
  function ArchetypeEndpoint(db: Contents, c: int): (r: Option<ArchetypeView>)
    ensures r.None? <==> db.ArchetypeAssignment(c).None?
    ensures r.Some? ==> r.value.row == db.ArchetypeAssignment(c).value
    ensures r.Some? && r.value.row.data.keyTraits.Dumped? ==> r.value.keyTraits == r.value.row.data.keyTraits.value
    ensures r.Some? && r.value.row.data.keyTraits.Unreadable? ==> r.value.keyTraits == JList([])
  {
    match db.ArchetypeAssignment(c)
    case None => None
    case Some(row) => Some(ArchetypeView(row, LoadsOr(row.data.keyTraits, JList([]))))
  }

  /** What `analyze_archetype` saves, `get_archetype_endpoint` returns: the
      row it inserted, with the model's `key_traits`. */
  lemma ArchetypeRoundTrip(rows: seq<Row<ArchetypeData>>, db: Contents, v: Json, id: nat, c: int, createdAt: nat)
    requires ArchetypeRecord(v, createdAt).Some?
    requires db.archetypes == ReplaceForCase(rows, Row(id, c, ArchetypeRecord(v, createdAt).value))
    ensures ArchetypeEndpoint(db, c) ==
      Some(ArchetypeView(Row(id, c, ArchetypeRecord(v, createdAt).value), Subscript(v, "key_traits").value))
  {
    ReplaceForCaseSpec(rows, Row(id, c, ArchetypeRecord(v, createdAt).value), c);
  }

  // ------------------------------------------------- assignment enrichment

  const UnknownPattern := JString("Patrón desconocido")

  /** `patterns.get(a['pattern_id'], 'Patrón desconocido')`, where
      `patterns` maps the ids of the given patterns to their descriptions. */
  function PatternLabel(patterns: seq<Row<PatternData>>, patternId: Json): (r: Json)
    ensures (exists p :: p in patterns && PatternIdMatches(p, patternId)) ==>
      exists p :: p in patterns && PatternIdMatches(p, patternId) && r == p.data.description
    ensures (forall p :: p in patterns ==> !PatternIdMatches(p, patternId)) ==> r == UnknownPattern
  {
    match FindPattern(patterns, patternId)
    case Some(p) => p.data.description
    case None => UnknownPattern
  }

  /** `get_case_axis_assignments`: the joined assignments of the case, each
      with `pattern_description` overwritten by its label among the case's
      own patterns. */
  method AxisAssignmentsEndpoint(s: Store, c: int) returns (r: seq<JoinedAssignment>)
    ensures var joined := s.Snapshot().AxisAssignments(c);
      |r| == |joined| &&
      forall i :: 0 <= i < |joined| ==>
        r[i] == JoinedAssignment(joined[i].row, PatternLabel(s.Snapshot().CasePatterns(c), joined[i].row.data.patternId))
  {
    r := Relabel(s.Snapshot().AxisAssignments(c), s.Snapshot().CasePatterns(c));
  }

  /** The loop `for a in assigns`: each joined row with its
      `pattern_description` overwritten by the label. */
  method Relabel(joined: seq<JoinedAssignment>, patterns: seq<Row<PatternData>>) returns (r: seq<JoinedAssignment>)
    ensures |r| == |joined|
    ensures forall i :: 0 <= i < |joined| ==>
      r[i] == JoinedAssignment(joined[i].row, PatternLabel(patterns, joined[i].row.data.patternId))
  {
    r := [];
    var i := 0;
    while i < |joined|
      invariant 0 <= i <= |joined| && |r| == i
      invariant forall k :: 0 <= k < i ==> r[k] == JoinedAssignment(joined[k].row, PatternLabel(patterns, joined[k].row.data.patternId))
    {
      r := r + [JoinedAssignment(joined[i].row, PatternLabel(patterns, joined[i].row.data.patternId))];
      i := i + 1;
    }
  }

  /** A pattern of the case is labelled with its own description. */
  lemma LabelOfOwnPattern(patterns: seq<Row<PatternData>>, c: int, p: Row<PatternData>, pid: Json)
    requires Pairwise(patterns, IdLess) && p in patterns && p.caseId == c && PatternIdMatches(p, pid)
    ensures PatternLabel(RowsOf(patterns, c), pid) == p.data.description
  {
    var own := RowsOf(patterns, c);
    var i :| 0 <= i < |patterns| && patterns[i] == p;
    assert p in own;
    var q := FindPattern(own, pid).value;
    var k :| 0 <= k < |own| && own[k] == q;
    PatternIdMatchesSame(p, q, pid);
    IdsUnique(patterns, p, q);
  }

  /** A pattern of another case is not among the case's, so it is unknown. */
  lemma LabelOfOtherPattern(patterns: seq<Row<PatternData>>, c: int, p: Row<PatternData>, pid: Json)
    requires Pairwise(patterns, IdLess) && p in patterns && p.caseId != c && PatternIdMatches(p, pid)
    ensures PatternLabel(RowsOf(patterns, c), pid) == UnknownPattern
  {
    var own := RowsOf(patterns, c);
    forall q | q in own ensures !PatternIdMatches(q, pid) {
      var k :| 0 <= k < |own| && own[k] == q;
      if PatternIdMatches(q, pid) {
        PatternIdMatchesSame(p, q, pid);
        IdsUnique(patterns, p, q);
      }
    }
  }

  /** The label the endpoint writes agrees with the description the join
      found when the pattern belongs to the case; a pattern of another case
      is labelled unknown. */
  lemma PatternLabelAgrees(assignments: seq<Row<AssignmentData>>, patterns: seq<Row<PatternData>>, c: int,
                           j: JoinedAssignment)
    requires Pairwise(patterns, IdLess)
    requires j in AxisAssignmentsOf(assignments, patterns, c)
    ensures var pid := j.row.data.patternId;
      (exists p :: p in patterns && PatternIdMatches(p, pid) && p.caseId == c) ==>
        PatternLabel(RowsOf(patterns, c), pid) == j.patternDescription
    ensures var pid := j.row.data.patternId;
      (forall p :: p in patterns && PatternIdMatches(p, pid) ==> p.caseId != c) ==>
        PatternLabel(RowsOf(patterns, c), pid) == UnknownPattern
  {
    var pid := j.row.data.patternId;
    assert j in Join(RowsOf(assignments, c), patterns);
    var p :| p in patterns && PatternIdMatches(p, pid) && j.patternDescription == p.data.description;
    if p.caseId == c {
      LabelOfOwnPattern(patterns, c, p, pid);
    } else {
      LabelOfOtherPattern(patterns, c, p, pid);
      forall p' | p' in patterns && PatternIdMatches(p', pid) ensures p'.caseId != c {
        PatternIdMatchesSame(p, p', pid);
        IdsUnique(patterns, p, p');
      }
    }
  }
}
