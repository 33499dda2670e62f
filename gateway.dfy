/** What every analysis handler shares: how it reads the request body and
    the mode, what it gets back from the language model, how it decodes
    that reply, and the error responses it can give. */
module Gateway {
  import opened Wrappers
  import opened Json

  /** The error responses, one per distinct `jsonify({'error': ...})`. */
  datatype ErrorKind =
    | MissingIdentifier    // 'Identificador es requerido'
    | MissingContent       // 'Contenido es requerido'
    | CaseNotFound         // 'Caso no encontrado'
    | NoInputs             // phase 2 gate
    | NoPatterns           // phase 3 gate
    | NoAssignments        // phase 4 gate
    | NoAxisStates         // phase 5 and phase 6 gates
    | NoThreshold          // phase 7 gate
    | MissingPrompt        // 'Prompt de patrones no encontrado'
    | MissingApiKey        // 'Falta OPENAI_API_KEY en .env'
    | NoJsonFound          // 'La IA local no devolvió un JSON válido.'
    | MalformedReply       // the reply is not JSON
    | Internal             // any other exception, caught by the handler's outer `except`

  /** The HTTP status of each error response. */
  function StatusCode(e: ErrorKind): (code: nat)
    ensures code == 400 || code == 404 || code == 500
    ensures code == 404 <==> e == CaseNotFound
    ensures code == 500 <==> e in {MissingPrompt, NoJsonFound, MalformedReply, Internal}
  {
    match e
    case CaseNotFound => 404
    case MissingPrompt | NoJsonFound | MalformedReply | Internal => 500
    case _ => 400
  }

  datatype Outcome<T> = Success(value: T) | Failure(error: ErrorKind)

  /** What a handler finds outside the database: the prompt files on disk,
      `OPENAI_API_KEY`, and `json.loads` (None where it raises). */
  datatype Env = Env(promptFiles: set<string>, apiKey: Option<string>, loads: string -> Option<Json>)

  const PatternPrompt := "prompts/pattern_detection.md"
  const LinkPrompt := "prompts/axis_linking.md"
  const ClassificationPrompt := "prompts/axis_classification.md"
  const TensionPrompt := "prompts/tension_detection.md"
  const ThresholdPrompt := "prompts/threshold_evaluation.md"
  const ArchetypePrompt := "prompts/archetype_assignment.md"

  /** `if not api_key`. */
  predicate ApiKeySet(key: Option<string>) {
    key.Some? && key.value != ""
  }

  /** `request.json or {}`. */
  function OrEmpty(body: Json): Json {
    if Truthy(body) then body else JObject([])
  }

  /** `data.get('mode', 'local') == 'cloud'`; None where `data` is not a dict. */
  function IsCloud(data: Json): (r: Option<bool>)
    ensures r.None? <==> !data.JObject?
    ensures r == Some(true) <==> data.JObject? && Lookup(data.fields, "mode") == Some(JString("cloud"))
  {
    match Get(data, "mode", JString("local"))
    case None => None
    case Some(m) => Some(m == JString("cloud"))
  }

  /** `json.loads(content)` on the model's reply; None for the reply means
      the client call itself raised. */
  function Decode(env: Env, reply: Option<string>): (r: Outcome<Json>)
    ensures r.Failure? ==> r.error == Internal || r.error == MalformedReply
    ensures r.Failure? && r.error == Internal <==> reply.None?
  {
    match reply
    case None => Failure(Internal)
    case Some(text) =>
      match env.loads(text)
      case None => Failure(MalformedReply)
      case Some(v) => Success(v)
  }

  /** `v.get(key, v)`: Python raises AttributeError when `v` is not a dict. */
  function Unwrap(v: Json, key: string): (r: Outcome<Json>)
    ensures r.Failure? <==> !v.JObject?
    ensures r.Failure? ==> r.error == Internal
    ensures r.Success? ==> r.value == v || Lookup(v.fields, key) == Some(r.value)
  {
    match Get(v, key, v)
    case None => Failure(Internal)
    case Some(x) => Success(x)
  }

  /** `if isinstance(x, dict): x = [x]`. */
  function AsList(v: Json): Json {
    if v.JObject? then JList([v]) else v
  }

  // ----------------------------------------------------------------
  // `re.search(r'(\[.*\]|\{.*\})', content, re.DOTALL)`

  /** An opening bracket at `i` and the matching kind of closing bracket at `j`. */
  predicate Pair(s: string, i: int, j: int) {
    0 <= i < j < |s| && ((s[i] == '[' && s[j] == ']') || (s[i] == '{' && s[j] == '}'))
  }

  /** The leftmost position from `from` on where a pair starts, closed by the
      last possible bracket: what a greedy `.*` inside a leftmost search finds. */
  ghost predicate FirstLongestPair(s: string, from: int, i: int, j: int) {
    from <= i && Pair(s, i, j) &&
    (forall i', j' :: from <= i' && Pair(s, i', j') ==> i <= i') &&
    (forall j' :: Pair(s, i, j') ==> j' <= j)
  }

  /** The last position after `i` holding `ch`. */
  function LastAfter(s: string, ch: char, i: nat): (r: Option<nat>)
    ensures r.Some? ==> i < r.value < |s| && s[r.value] == ch && forall j :: r.value < j < |s| ==> s[j] != ch
    ensures r.None? ==> forall j :: i < j < |s| ==> s[j] != ch
    decreases |s|
  {
    if |s| <= i + 1 then None
    else if s[|s| - 1] == ch then Some(|s| - 1)
    else
      var r := LastAfter(s[..|s| - 1], ch, i);
      assert forall j :: i < j < |s| - 1 ==> s[..|s| - 1][j] == s[j];
      r
  }

  /** Where the match starting at `i` ends, if one starts there. */
  function MatchEnd(s: string, i: nat): (r: Option<nat>)
    requires i < |s|
    ensures r.Some? ==> Pair(s, i, r.value) && forall j :: Pair(s, i, j) ==> j <= r.value
    ensures r.None? ==> forall j :: !Pair(s, i, j)
  {
    if s[i] == '[' then LastAfter(s, ']', i)
    else if s[i] == '{' then LastAfter(s, '}', i)
    else None
  }

  function SearchFrom(s: string, from: nat): (r: Option<string>)
    ensures r.None? <==> forall i, j :: from <= i && Pair(s, i, j) ==> false
    ensures r.Some? ==> exists i, j :: FirstLongestPair(s, from, i, j) && r.value == s[i..j + 1]
    decreases |s| - from
  {
    if from >= |s| then None
    else
      match MatchEnd(s, from)
      case Some(j) =>
        assert FirstLongestPair(s, from, from, j);
        Some(s[from..j + 1])
      case None =>
        var r := SearchFrom(s, from + 1);
        if r.Some? then
          FirstLongestPairShift(s, from, from + 1, r.value);
          r
        else r
  }

  /** No pair starts at `from`, so the first pair from `from + 1` on is also
      the first from `from` on. */
  lemma FirstLongestPairShift(s: string, from: nat, next: nat, t: string)
    requires from < |s| && next == from + 1 && forall j :: !Pair(s, from, j)
    requires exists i, j :: FirstLongestPair(s, next, i, j) && t == s[i..j + 1]
    ensures exists i, j :: FirstLongestPair(s, from, i, j) && t == s[i..j + 1]
  {
    var i, j :| FirstLongestPair(s, next, i, j) && t == s[i..j + 1];
    assert FirstLongestPair(s, from, i, j);
  }

  /** The text the local branch hands to `json.loads`, or None where the
      search finds no match. */
  function ExtractJson(content: string): (r: Option<string>)
    ensures r.None? <==> forall i, j :: Pair(content, i, j) ==> false
    ensures r.Some? ==> exists i, j :: FirstLongestPair(content, 0, i, j) && r.value == content[i..j + 1]
  {
    SearchFrom(content, 0)
  }

  /** The extracted text starts with an opening bracket and ends with the
      closing bracket of the same kind. */
  lemma ExtractJsonBrackets(content: string)
    requires ExtractJson(content).Some?
    ensures var t := ExtractJson(content).value;
      |t| >= 2 && ((t[0] == '[' && t[|t| - 1] == ']') || (t[0] == '{' && t[|t| - 1] == '}'))
  {
    var t := ExtractJson(content).value;
    var i, j :| FirstLongestPair(content, 0, i, j) && t == content[i..j + 1];
    assert t[0] == content[i] && t[|t| - 1] == content[j];
  }
}
