# Provokers tool: case store, phase handlers and browser helpers

The provokers tool walks an analyst through a case in phases:

- **Phase 1:** inputs are recorded.
- **Phase 2:** a language model detects behavioural patterns in them.
- **Phase 3:** each pattern is linked to one or more axes.
- **Phase 4:** every axis gets a state.
- **Phase 5:** tensions between the axes are found.
- **Phase 6:** a threshold is evaluated.
- **Phase 7:** an archetype is assigned.

All results live in one SQLite file. A small Flask server has one handler per phase. Each handler:

1. checks that the previous phase left something in the database;
2. asks the model, locally or in the cloud;
3. decodes and normalises the model's JSON reply;
4. writes the rows.

A browser script renders the results.

This project models that core in Dafny:

| file | models |
|---|---|
| `wrappers.dfy`, `json.dfy` | Python values as the server sees them: dictionaries as association lists, `d.get`, `d[k]`, iteration, truthiness, `in` on strings, what `sqlite3` accepts as a parameter, and `json.loads` behind a bare `except` |
| `strings.dfy` | substring search and JavaScript's decimal rendering of an integer |
| `tables.dfy` | a table as the sequence of its rows in insertion order. `WHERE case_id = ?`, `DELETE … WHERE`, `ORDER BY … DESC`, and the AUTOINCREMENT id invariant. |
| `database.dfy` | the DAO layer of `database.py`. `class Store` holds one `seq` field per table and the handlers' DAO calls are its methods. The `SELECT`s are functions on a snapshot of those tables. |
| `gateway.dfy` | what all analysis handlers share: `request.json or {}`, the mode, the prompt files, `OPENAI_API_KEY`, decoding the reply, `v.get(key, v)`, the `re.search` the local branch uses to cut JSON out of a reply, and the HTTP status of every error |
| `steps.dfy` | the shape of every save loop. Each element of a batch becomes a step: raise, skip, or save a record. The loop stops at the first step that raises or that the DAO rejects, and every row saved before that stays committed. |
| `phase7.dfy` | the handlers of `backup_phase7_ok/app.py`. Each handler is split in two. A pure plan function covers everything before the first write. A method runs the save loop against the `Store`. |
| `phase3.dfy` | the different `link_axes` handler of `backup_phase3_ok/app.py`, with its two nested save loops |
| `frontend.dfy` | the decisions `static/script.js` makes: the phase header, the cloud toggle, the loading state of a button (a `class`), and the CSS classes for contradictions, axis status, tension severity and threshold score |

The language model, the prompt files and the API key are parameters of every handler:

- the `Env` value holds the prompt files, the key and `json.loads`;
- an `Option<string>` holds the model's reply (`None` when the call raised).

So each contract holds for every reply the model could send. Time is a store field, `clock`, that each insert stamps and advances. Ids come from one store-wide counter, `nextId`.

The same code appears in several versions:

- `backup_phase5_ok/database.py` applies the same statements as `database.py` for the operations they share, so the same members model both. For example, `create_case` is at backup_phase5_ok/database.py:54-63 and `add_input` at :77-87.
- `backup_phase3_ok/app.py` lines 26-169 are the same text as `backup_phase7_ok/app.py` lines 27-170. So `Phase7.CreateCase`, `Phase7.AddInput` and `Phase7.AnalyzePatterns` model both files; only `link_axes` differs.

Points where the code may surprise a reader:

- Requests are not serialised: there is no lock around the database.
- Nothing makes a handler all-or-nothing. Every DAO call commits on its own, so a batch that fails half way leaves the rows before the failure. `RunAppends` with `ok == false` states exactly that prefix.
- The tension handler clears the case's tensions before it saves. A failure after the clear leaves only a prefix of the new batch.
- No reply is checked against a vocabulary or a schema. The axis status and the threshold status are stored as the model wrote them.
- `create_case` does not reject a duplicate identifier. `delete_case` returns True whether or not the case exists.
- A read for an absent case returns an empty list or `None`.
- The browser colours the threshold score with `var(--success)`, `#ffce56` and `var(--danger)`.

## Model

| member | source | states |
|---|---|---|
| Database.FindCase | database.py:94-98 | `get_case` finds a case exactly when some case has that id, and returns a case with that id |
| Database.AllCasesNewestFirst | database.py:88-92 | `get_all_cases` lists the same cases, with each created strictly after every later one in the list |
| Database.MetadataRoundTrip | database.py:118 | truthy metadata reads back as what was stored; falsy metadata reads back as `{}` |
| Database.CaseInputsNewestFirst | database.py:126-130 | `get_case_inputs` returns exactly the rows of that case, newest first |
| Database.FindPattern | database.py:160-169 | the inner `JOIN` finds a pattern exactly when its id equals the assignment's `pattern_id` |
| Database.Join | database.py:160-169 | inner `JOIN`: an assignment without a matching pattern is dropped; every matched assignment appears once, with its pattern's description |
| Database.AxisAssignmentsJoin | database.py:160-169 | `get_axis_assignments` returns exactly the case's assignments that name an existing pattern, each paired with that pattern's description |
| Database.PatternIdMatchesSame | database.py:160-169 | two patterns that match one `pattern_id` are the same row, so the join cannot duplicate an assignment |
| Database.ReplaceAxisStateSpec | database.py:173-180 | after `save_axis_state` the (case, axis) key holds exactly the new row, and every other key keeps its rows |
| Database.ReplaceAxisStateUnique | database.py:173-180 | `save_axis_state` keeps at most one row per (case, axis) |
| Database.LastWithKey | database.py:173-180 | the last of a batch's states for a key is in the batch and has that key; None exactly when no state has it |
| Database.ReplaceAllSpec | database.py:173-180 | after a batch of `save_axis_state` calls, each key holds the last state the batch gave it, or its old rows if the batch never named it |
| Database.FirstRow | database.py:227-233 | `fetchone` returns None exactly when the case has no row, and otherwise its first row |
| Database.ReplaceForCaseSpec | database.py:217-225 | `save_threshold_evaluation` and `save_archetype_assignment` leave the new row as the case's only row, and `fetchone` then returns it; other cases are unchanged |
| Database.ReplaceForCaseUnique | database.py:237-245 | the one-row-per-case invariant of the threshold and archetype tables is preserved |
| Database.CascadeDeleteTables | database.py:100-112 | `delete_case` leaves every dependent table without the case's rows and the others in order |
| Database.CascadeDeleteSpec | database.py:100-112 | after `delete_case` the case has no rows in any table, and every other case reads exactly what it read before |
| Database.DropCaseFind | database.py:100-112 | deleting one case does not change what `get_case` returns for another |
| Database.Store.constructor | database.py:12-75 | `init_db` on a fresh file gives empty tables that satisfy the store invariant |
| Database.Store.CreateCase | database.py:77-86 | an insert succeeds exactly when both values are bindable, with a fresh id and the current time, and changes nothing else |
| Database.Store.DeleteCase | database.py:100-112 | always returns True and leaves the cascade-deleted snapshot |
| Database.Store.AddInput | database.py:114-124 | the row appended holds the content, the type, the metadata as `json.dumps` writes it and the time; a list or dict content or type changes nothing |
| Database.Store.AddPattern | database.py:132-142 | appends one pattern row with a fresh id when every field is bindable, else changes nothing |
| Database.Store.SaveAxisAssignment | database.py:150-158 | appends one assignment row when the values can be bound, else changes nothing |
| Database.Store.SaveAxisState | database.py:173-180 | replaces the (case, axis) row when the values can be bound, else changes nothing |
| Database.Store.SaveTension | database.py:192-198 | appends one tension with `axes_involved` dumped to JSON when the values can be bound |
| Database.Store.ClearCaseTensions | database.py:208-213 | removes exactly the case's tensions |
| Database.Store.SaveThresholdEvaluation | database.py:217-225 | replaces the case's evaluation when the values can be bound, stamped with the current time |
| Database.Store.SaveArchetypeAssignment | database.py:237-245 | replaces the case's archetype when the values can be bound, with key traits dumped to JSON |
| Tables.IdsUnique | database.py:12-75 | no two rows of a table share an AUTOINCREMENT id |
| Json.Lookup | backup_phase7_ok/app.py:30-31 | a key is found exactly when some binding has it, and the first binding wins |
| Json.Iterate | backup_phase7_ok/app.py:152 | what a Python `for` visits: a list's items, a dict's keys or a string's characters; it raises on None, booleans and numbers, and is empty exactly for falsy values |
| Json.Contains | backup_phase7_ok/app.py:220 | Python `in` is the substring test on two strings, and raises where the container is not iterable |
| Gateway.StatusCode | backup_phase7_ok/app.py:71-168 | 404 only for a missing case; 500 for the missing prompt, the unreadable reply and internal errors; 400 for the rest |
| Gateway.IsCloud | backup_phase7_ok/app.py:74-75 | cloud mode exactly when the body is a dict whose `mode` is `"cloud"`; undefined (AttributeError) when the body is not a dict |
| Gateway.Decode | backup_phase7_ok/app.py:112 | reading the reply fails with an internal error exactly when the model call raised, otherwise only as a malformed reply |
| Gateway.Unwrap | backup_phase7_ok/app.py:214 | `v.get(key, v)` raises exactly when `v` is not a dict, and otherwise returns `v` or the value under `key` |
| Gateway.ExtractJson | backup_phase7_ok/app.py:131 | the `re.search` fails exactly when no bracket pair exists, and otherwise returns the leftmost-longest bracketed span |
| Gateway.ExtractJsonBrackets | backup_phase7_ok/app.py:131-135 | the extracted text opens and closes with a matching kind of bracket |
| Phase7.CreateCase | backup_phase7_ok/app.py:27-37 | a missing or falsy identifier is a 400 with no write; otherwise the new case is readable under a fresh id with those values |
| Phase7.CaseDetails | backup_phase7_ok/app.py:39-44 | succeeds exactly when the case exists and returns it; otherwise a 404 |
| Phase7.AddInput | backup_phase7_ok/app.py:52-63 | a falsy content is a 400 with no write; otherwise one input appended with the defaults `'frase'` and `{}` |
| Phase7.PatternBatch | backup_phase7_ok/app.py:113-117 | the decoded reply becomes a list; it fails only when the reply is neither a list nor a dict |
| Phase7.PatternBatchShapes | backup_phase7_ok/app.py:146-148 | a list is kept, a dict without `patterns` is wrapped as one pattern, and the value under `patterns` is normalised to a list |
| Phase7.PatternsPlan | backup_phase7_ok/app.py:71-148 | an accepted reply is always a list |
| Phase7.PatternsGate | backup_phase7_ok/app.py:78-80 | with no inputs the answer does not depend on the model or the environment, and for an empty body it is the "no inputs" 400 |
| Phase7.PatternsModeErrors | backup_phase7_ok/app.py:97-144 | only cloud mode can report the missing API key, and only for a case with inputs, a prompt and no key; only the local branch can report a reply without JSON or a malformed one |
| Phase7.PatternStep | backup_phase7_ok/app.py:152-161 | a batch element is saved exactly when it is a dict, and raises otherwise |
| Phase7.PatternDefaults | backup_phase7_ok/app.py:155-159 | each missing field takes its documented default: "Sin descripción", "Media", "Desconocida", "No especificado", "Ninguna" |
| Phase7.SavePatterns | backup_phase7_ok/app.py:152-161 | the loop appends the saves of the longest prefix that passes and stops at the first failure; no other table changes |
| Phase7.AnalyzePatterns | backup_phase7_ok/app.py:71-168 | a plan failure writes nothing; otherwise the reply or an internal error, with exactly the committed prefix of patterns |
| Phase7.PatternsResult | backup_phase7_ok/app.py:152-163 | a successful run appends one pattern per batch element, in order, with that element's fields |
| Phase7.FirstMatch | backup_phase7_ok/app.py:220 | `next(...)` finds the first pattern whose description contains or is contained in the reply's description; none exactly when every pattern misses; it raises where `in` raises |
| Phase7.FirstMatchText | backup_phase7_ok/app.py:220 | with string descriptions the search never raises and finds the first pattern related by substring |
| Phase7.LinkStep | backup_phase7_ok/app.py:216-224 | a saved assignment names the id of a pattern that exists, and carries the reply's axis name and justification |
| Phase7.LinkPlan | backup_phase7_ok/app.py:176-214 | an accepted reply can be iterated; errors are internal, "no patterns" or a malformed reply |
| Phase7.LinkGate | backup_phase7_ok/app.py:183-185 | with no patterns a dict body gets the 400 and a non-dict body an internal error, whatever the model says |
| Phase7.LinkPlanShapes | backup_phase7_ok/app.py:212-214 | a reply that is not a dict raises, a dict without `assignments` is used as it is, and the list under `assignments` is used |
| Phase7.SaveAssignments | backup_phase7_ok/app.py:216-224 | the assignment loop appends the committed prefix and changes no other table |
| Phase7.AnalyzeLinkAxes | backup_phase7_ok/app.py:176-234 | a plan failure writes nothing; otherwise the reply or an internal error, with the committed prefix of assignments |
| Phase7.LinkSavesNamePatterns | backup_phase7_ok/app.py:220-224 | every saved assignment names the id of one of the case's patterns |
| Phase7.LinkedRowsJoin | backup_phase7_ok/app.py:236-245 | every saved assignment reads back from the join with its pattern's description |
| Phase7.DimensionsPlan | backup_phase7_ok/app.py:249-293 | an accepted batch can be iterated and is not a dict; errors are internal, "no assignments" or a malformed reply |
| Phase7.DimensionsGate | backup_phase7_ok/app.py:256-258 | with no assignments the answer is the 400, whatever the model says |
| Phase7.DimensionsSingleState | backup_phase7_ok/app.py:292-293 | a single state object, bare or under `axis_states`, becomes a one-element batch |
| Phase7.AxisStep | backup_phase7_ok/app.py:295-296 | a state is saved exactly when it has all four keys, with those values |
| Phase7.SaveAxisStates | backup_phase7_ok/app.py:295-296 | the loop replaces per (case, axis) for the committed prefix and changes no other table |
| Phase7.AnalyzeDimensions | backup_phase7_ok/app.py:249-306 | a plan failure writes nothing; otherwise the reply or an internal error, with the committed prefix of states |
| Phase7.DimensionsResult | backup_phase7_ok/app.py:290-298 | after the run each (case, axis) key holds the batch's last state for it, or its old rows |
| Phase7.TensionsPlan | backup_phase7_ok/app.py:315-356 | an accepted batch is not a dict; errors are internal, "no axis states" or a malformed reply |
| Phase7.TensionsGate | backup_phase7_ok/app.py:322-324 | with no axis states the answer is the 400 whatever the model says, and an unreadable reply is the malformed-reply 500 |
| Phase7.TensionStep | backup_phase7_ok/app.py:361-362 | a tension is saved exactly when it has all four keys, with those values |
| Phase7.SaveTensions | backup_phase7_ok/app.py:361-362 | the loop appends the committed prefix of tensions |
| Phase7.AnalyzeTensions | backup_phase7_ok/app.py:315-372 | a plan failure writes nothing; otherwise the case's tensions are cleared first, then the committed prefix of the batch is appended |
| Phase7.TensionsResult | backup_phase7_ok/app.py:359-364 | after a successful run the case's tensions are exactly the batch, in order; other cases keep theirs |
| Phase7.TensionsAllSaved | backup_phase7_ok/app.py:361-362 | a run that gets through saves every element, in order |
| Phase7.TensionsEndpoint | backup_phase7_ok/app.py:374-383 | each of the case's tensions, with `axes_involved` decoded, or `[]` where decoding raises |
| Phase7.ThresholdPlan | backup_phase7_ok/app.py:387-431 | a plan only succeeds when the case has axis states |
| Phase7.ThresholdGate | backup_phase7_ok/app.py:398-399 | with no axis states the answer is the 400, whatever the model says |
| Phase7.ThresholdRecord | backup_phase7_ok/app.py:429-435 | a record exists exactly when the evaluation has `score`, `status` and `reasoning`, and holds those values |
| Phase7.AnalyzeThreshold | backup_phase7_ok/app.py:387-443 | a stored evaluation replaces the case's previous one and reads back from `get_threshold_evaluation`; a failure writes nothing |
| Phase7.ArchetypePlan | backup_phase7_ok/app.py:452-498 | a plan only succeeds when the case has a threshold evaluation |
| Phase7.ArchetypeGate | backup_phase7_ok/app.py:464-465 | with no evaluation the answer is the 400, whatever the model says |
| Phase7.ArchetypeRecord | backup_phase7_ok/app.py:496-502 | a record exists exactly when the archetype has its four keys, and holds those values |
| Phase7.AnalyzeArchetype | backup_phase7_ok/app.py:452-510 | a stored archetype replaces the case's previous one; a failure writes nothing |
| Phase7.ArchetypeEndpoint | backup_phase7_ok/app.py:512-520 | None exactly when the case has no archetype; otherwise its row, with readable key traits decoded and unreadable ones as `[]` |
| Phase7.ArchetypeRoundTrip | backup_phase7_ok/app.py:496-520 | what the archetype handler stored reads back from the GET endpoint, with the key traits decoded to the reply's value |
| Phase7.PatternLabel | backup_phase7_ok/app.py:240-243 | an assignment is labelled with its pattern's description when one matches, otherwise "Patrón desconocido" |
| Phase7.Relabel | backup_phase7_ok/app.py:242-243 | the loop relabels every joined row in place and keeps their order |
| Phase7.AxisAssignmentsEndpoint | backup_phase7_ok/app.py:236-245 | returns the case's joined assignments, each relabelled from the case's own patterns |
| Phase7.LabelOfOwnPattern | backup_phase7_ok/app.py:240-243 | an assignment pointing at one of the case's patterns gets that pattern's description |
| Phase7.LabelOfOtherPattern | backup_phase7_ok/app.py:240-243 | one pointing at another case's pattern is relabelled "Patrón desconocido" |
| Phase7.PatternLabelAgrees | backup_phase7_ok/app.py:240-243 | the Python relabelling agrees with the SQL join on the case's own patterns and overrides it for other cases' |
| Phase3.CloudAssignments | backup_phase3_ok/app.py:197-210 | the cloud branch keeps a list, takes the value under `assignments` (default `[]`) of a dict and wraps a dict there; it fails only on other values |
| Phase3.LinkAxesPlan | backup_phase3_ok/app.py:175-223 | errors are only internal ones or "no patterns" |
| Phase3.LinkAxesGate | backup_phase3_ok/app.py:182-184 | with no patterns the answer does not depend on the model, and for a dict or empty body it is the 400 |
| Phase3.LinkAxesShapes | backup_phase3_ok/app.py:197-223 | each reply shape is normalised as the code does, and an unfindable or unreadable local reply becomes `[]` |
| Phase3.LocalNeverFails | backup_phase3_ok/app.py:212-223 | once the prompt is read, the local branch always produces a batch |
| Phase3.MatchStep | backup_phase3_ok/app.py:228-232 | one axis match is saved exactly when it is a dict, with the item's `pattern_id` and its own name and justification |
| Phase3.ItemSteps | backup_phase3_ok/app.py:226-232 | an item expands into one step per axis match; none of them is skipped |
| Phase3.ItemStepsPass | backup_phase3_ok/app.py:226-232 | an item that gets through saves exactly one assignment per match |
| Phase3.MatchCountSaves | backup_phase3_ok/app.py:226-232 | a batch that gets through has one saved step per match across all items |
| Phase3.SaveItem | backup_phase3_ok/app.py:228-232 | the inner loop commits the item's matches and counts them, or stops at the first failure |
| Phase3.SaveItems | backup_phase3_ok/app.py:226-232 | the nested loops append the committed prefix and count every saved assignment |
| Phase3.LinkAxes | backup_phase3_ok/app.py:175-240 | a plan failure writes nothing; otherwise the reply with the count of saved assignments, or an internal error, with the committed prefix |
| Phase3.LinkAxesResult | backup_phase3_ok/app.py:226-234 | the count returned equals the number of axis matches and of rows appended |
| Frontend.ScoreBand | static/script.js:565-568 | the border is success from 61 up, yellow in [41, 61) and danger below 41 |
| Frontend.ScoreBandMonotone | static/script.js:565-568 | a higher score never gets a worse band |
| Frontend.ScoreBandBoundaries | static/script.js:565-568 | on integer scores: danger up to 40, yellow 41-60, success from 61 |
| Frontend.SeverityClass | static/script.js:497-500 | "alta" exactly when the severity contains "Alta", "media" exactly when it contains "Media" but not "Alta", otherwise "baja" |
| Frontend.SeverityClassExtend | static/script.js:497-500 | adding text around a severity never lowers an "alta" or a "media" |
| Frontend.Slug | static/script.js:434 | `replace(/\s+/g, '-')` leaves no whitespace and never lengthens the text |
| Frontend.StatusClass | static/script.js:434 | the class starts with "status-" and has no whitespace |
| Frontend.SlugNoSpace | static/script.js:434 | a status without whitespace is kept as it is |
| Frontend.SlugIdempotent | static/script.js:434 | replacing twice is the same as replacing once |
| Frontend.SlugOneRun | static/script.js:434 | one run of whitespace becomes one hyphen |
| Frontend.ModeFor | static/script.js:277 | the mode is "cloud" exactly when the toggle exists and is checked |
| Frontend.ModeReachesServer | static/script.js:345 | the mode sent is read by the server as cloud exactly when the toggle is checked |
| Frontend.Title | static/script.js:29-31 | a title exists exactly for phases 0 to 8 |
| Frontend.TitlesDistinct | static/script.js:29 | no two phases share a title |
| Frontend.PhaseHeader | static/script.js:31 | the header is "Fase n: " followed by the phase's title |
| Frontend.PhaseHeaderInjective | static/script.js:31 | two phases never share a header |
| Frontend.ShowsContradictions | static/script.js:330 | the warning is shown exactly when the contradictions differ from "Ninguna" |
| Frontend.ContradictionsOfSavedPattern | static/script.js:330 | a pattern saved without contradictions never shows the warning |
| Frontend.Toggle | static/script.js:252-270 | `setLoading` as written: sets loading and disabled, saves the caption and shows the loading text; it restores the caption only when the saved text is non-empty |
| Frontend.ToggleRoundTrip | static/script.js:252-270 | for a non-empty caption, loading and then clearing restores the button |
| Frontend.ToggleLosesEmptyLabel | static/script.js:266 | an empty caption stays "Procesando..." after loading ends |
| Frontend.ToggleFixed | static/script.js:266 | the restore guarded by whether a text was saved, not by its truthiness |
| Frontend.ToggleFixedRoundTrip | static/script.js:252-270 | loading and then clearing restores every button |
| Frontend.ToggleFixedAgrees | static/script.js:266 | the corrected version differs from the original only when the saved text is empty |
| Frontend.SetLoading | static/script.js:252-270 | a missing button is left alone; otherwise the button's new state is the `setLoading` transition of its old state |

## Left out

- The language model itself: the `OpenAI` and `ollama` calls and the prompt texts. The reply is a parameter.
- Reading the prompt files: only whether each exists is modelled.
- Flask routing, request parsing beyond `request.json`, JSON responses, templates and the `report` endpoint.
- The report's assembly and the phase 2 migration stub (`backup_phase7_ok/app.py:522-526`).
- The string interpolation that builds each prompt's summary text. The `KeyError` it can raise on rows lacking a key cannot happen with the rows the store holds.
- SQLite type affinity and column types. The model only keeps which Python values can be bound (a list or dict cannot) and what NOT NULL rejects.
- AUTOINCREMENT ids per table: one store-wide counter stands in for them. Only the concrete numbers differ.
- `datetime.now()`: a monotone `clock` stands in for it. Rows inserted in one request get distinct, increasing stamps.
- Connection handling, `conn.close()`, concurrent requests and file locking.
- The route `GET /api/cases/<id>/axis_assignments` at `backup_phase7_ok/app.py:236` is shadowed in Flask by the earlier one at line 171. It is modelled anyway, as `Phase7.AxisAssignmentsEndpoint`.
- The first `get_case_patterns` in `backup_phase5_ok/database.py:107-112` returns an undefined name. The later definition at :114-118 overrides it, and the model has only the later one.
- The DOM, `innerHTML` rendering, `fetch`, alerts and console logging in `static/script.js`. Only the decisions the script makes are modelled.
- Frontend.ScoreBand: models the score as a real number; the DOM's coercion of a non-numeric score (NaN compares false, so it is "danger") is not modelled.
- Frontend.SeverityClass: takes the severity as a string; a missing severity makes `includes` raise in the browser, which the model leaves out.
- Frontend.StatusClass: takes the status as a string, for the same reason.
- `classifier.py` and `check_env.py` are not part of this model. Neither is called by the handlers modelled here.
- `backup_phase7_ok/script.js` and `backup_phase3_ok/script.js` are earlier copies of the browser code and are not part of this model.
- Json.Bindable: every number counts as bindable. Python ints beyond 64 bits, on which `sqlite3` raises OverflowError (a 500 from the handler), are treated as bindable, and `JNumber` does not tell ints from floats.
- Json.Lookup: JSON objects are association lists standing for dicts with unique keys; a reply with a repeated key, where `json.loads` keeps the last binding, is not modelled.
- Phase7.PatternsPlan: `from openai import OpenAI` (backup_phase7_ok/app.py:99) is assumed to succeed; without the package the source answers 500 before the API-key check.
- Phase7.PatternsPlan: the `except json.JSONDecodeError` inside the local branch and the outer `except Exception` both become error kinds. The text of `str(e)` is not modelled.

## Findings

| source | as written | input that shows it | evidently intended | confidence | as-written member | corrected member |
|---|---|---|---|---|---|---|
| static/script.js:266 | after loading ends, the caption is restored only if `btn.dataset.originalText` is truthy | a button whose `.btn-text` is empty: `setLoading(btn, true)` then `setLoading(btn, false)` leaves "Procesando..." on it | restore whatever caption was saved, empty or not | not executed | Frontend.ToggleLosesEmptyLabel | Frontend.ToggleFixedRoundTrip |
