/** The browser's classification helpers (static/script.js): the colour of
    the threshold score, the CSS classes of tensions and dimensions, the
    analysis mode a button sends, the header text of a phase, when a
    pattern shows its contradictions, and the loading state of a button. */
module Frontend {
  import opened Wrappers
  import opened Json
  import opened Strings
  import opened Gateway
  import Phase7

  // ---------------------------------------------------------------------
  // Threshold score colour
  // ---------------------------------------------------------------------

  datatype Band = SuccessBand | YellowBand | DangerBand

  function BandRank(b: Band): nat {
    match b
    case DangerBand => 0
    case YellowBand => 1
    case SuccessBand => 2
  }

  /** The border colour of the score circle: `var(--success)` from 61 up,
      `#ffce56` from 41 up, `var(--danger)` below. */
  function ScoreBand(score: real): (b: Band)
    ensures b == SuccessBand <==> score >= 61.0
    ensures b == YellowBand <==> 41.0 <= score < 61.0
    ensures b == DangerBand <==> score < 41.0
  {
    if score >= 61.0 then SuccessBand
    else if score >= 41.0 then YellowBand
    else DangerBand
  }

  /** A higher score never gets a worse colour. */
  lemma ScoreBandMonotone(a: real, b: real)
    requires a <= b
    ensures BandRank(ScoreBand(a)) <= BandRank(ScoreBand(b))
  {
  }

  /** On whole scores the bands are 0..40, 41..60 and 61 up. */
  lemma ScoreBandBoundaries(n: int)
    ensures ScoreBand(n as real) == DangerBand <==> n <= 40
    ensures ScoreBand(n as real) == YellowBand <==> 41 <= n <= 60
    ensures ScoreBand(n as real) == SuccessBand <==> n >= 61
  {
  }

  // ---------------------------------------------------------------------
  // Tension severity class
  // ---------------------------------------------------------------------

  /** `severity-alta`, `severity-media` or `severity-baja` from the free
      text the model gave, `'Alta'` first. */
  function SeverityClass(severity: string): (r: string)
    ensures r in {"alta", "media", "baja"}
    ensures r == "alta" <==> IsSubstring("Alta", severity)
    ensures r == "media" <==> !IsSubstring("Alta", severity) && IsSubstring("Media", severity)
    ensures r == "baja" <==> !IsSubstring("Alta", severity) && !IsSubstring("Media", severity)
  {
    if IsSubstring("Alta", severity) then "alta"
    else if IsSubstring("Media", severity) then "media"
    else "baja"
  }

  /** Text around an occurrence leaves it an occurrence. */
  lemma SubstringExtend(n: string, h: string, pre: string, post: string)
    requires IsSubstring(n, h)
    ensures IsSubstring(n, pre + h + post)
  {
    var i :| OccursAt(n, h, i);
    assert (pre + h + post)[|pre| + i..|pre| + i + |n|] == h[i..i + |n|];
    assert OccursAt(n, pre + h + post, |pre| + i);
  }

  /** Adding words to a severity never lowers it from `alta`, and only
      raises it from `baja`. */
  lemma SeverityClassExtend(severity: string, pre: string, post: string)
    ensures SeverityClass(severity) == "alta" ==> SeverityClass(pre + severity + post) == "alta"
    ensures SeverityClass(severity) == "media" ==> SeverityClass(pre + severity + post) != "baja"
  {
    if IsSubstring("Alta", severity) {
      SubstringExtend("Alta", severity, pre, post);
    } else if IsSubstring("Media", severity) {
      SubstringExtend("Media", severity, pre, post);
    }
  }

  // ---------------------------------------------------------------------
  // Dimension status class
  // ---------------------------------------------------------------------

  /** A character JavaScript's `\s` matches: the white-space and
      line-terminator characters of ECMAScript. */
  predicate IsJsSpace(ch: char) {
    ch == '\t' || ch == '\n' || ch == '\U{000B}' || ch == '\U{000C}' || ch == '\r' || ch == ' ' ||
    ch == '\U{00A0}' || ch == '\U{1680}' || ('\U{2000}' <= ch <= '\U{200A}') ||
    ch == '\U{2028}' || ch == '\U{2029}' || ch == '\U{202F}' || ch == '\U{205F}' ||
    ch == '\U{3000}' || ch == '\U{FEFF}'
  }

  predicate NoSpace(s: string) {
    forall k :: 0 <= k < |s| ==> !IsJsSpace(s[k])
  }

  /** What is left after the white-space run at the front of `s`. */
  function DropSpaces(s: string): (r: string)
    ensures |r| <= |s| && r == s[|s| - |r|..]
    ensures |r| > 0 ==> !IsJsSpace(r[0])
  {
    if |s| > 0 && IsJsSpace(s[0]) then DropSpaces(s[1..]) else s
  }

  /** `s.replace(/\s+/g, '-')`: each maximal white-space run becomes one `-`. */
  function Slug(s: string): (r: string)
    ensures NoSpace(r) && |r| <= |s|
    decreases |s|
  {
    if |s| == 0 then ""
    else if IsJsSpace(s[0]) then "-" + Slug(DropSpaces(s[1..]))
    else [s[0]] + Slug(s[1..])
  }

  /** The class of a dimension card: `status-` and the slug of its status. */
  function StatusClass(status: string): (r: string)
    ensures IsPrefix("status-", r) && NoSpace(r)
  {
    "status-" + Slug(status)
  }

  /** A status without white space is used as it is. */
  lemma {:induction false} SlugNoSpace(s: string)
    requires NoSpace(s)
    ensures Slug(s) == s
    decreases |s|
  {
    if |s| > 0 {
      assert NoSpace(s[1..]);
      SlugNoSpace(s[1..]);
    }
  }

  /** Slugging a slug changes nothing, so a class name is its own slug. */
  lemma SlugIdempotent(s: string)
    ensures Slug(Slug(s)) == Slug(s)
  {
    SlugNoSpace(Slug(s));
  }

  /** Words separated by any white space give the same class as words
      separated by one space. */
  lemma SlugOneRun(a: string, b: string, run: string)
    requires |run| > 0 && NoSpace(a) && (|b| == 0 || !IsJsSpace(b[0]))
    requires forall k :: 0 <= k < |run| ==> IsJsSpace(run[k])
    ensures Slug(a + run + b) == a + "-" + Slug(b)
  {
    SlugPrefix(a, run + b);
    assert a + run + b == a + (run + b);
    DropRun(run, b);
  }

  lemma {:induction false} SlugPrefix(a: string, rest: string)
    requires NoSpace(a)
    ensures Slug(a + rest) == a + Slug(rest)
    decreases |a|
  {
    if |a| > 0 {
      assert (a + rest)[0] == a[0] && (a + rest)[1..] == a[1..] + rest;
      assert NoSpace(a[1..]);
      SlugPrefix(a[1..], rest);
      assert a + Slug(rest) == [a[0]] + (a[1..] + Slug(rest));
    } else {
      assert a + rest == rest;
    }
  }

  lemma DropRun(run: string, b: string)
    requires |run| > 0 && (|b| == 0 || !IsJsSpace(b[0]))
    requires forall k :: 0 <= k < |run| ==> IsJsSpace(run[k])
    ensures Slug(run + b) == "-" + Slug(b)
  {
    assert (run + b)[1..] == run[1..] + b;
    DropAll(run[1..], b);
  }

  lemma {:induction false} DropAll(run: string, b: string)
    requires (|b| == 0 || !IsJsSpace(b[0]))
    requires forall k :: 0 <= k < |run| ==> IsJsSpace(run[k])
    ensures DropSpaces(run + b) == b
    decreases |run|
  {
    if |run| > 0 {
      assert (run + b)[1..] == run[1..] + b;
      DropAll(run[1..], b);
    } else {
      assert run + b == b;
    }
  }

  // ---------------------------------------------------------------------
  // Analysis mode
  // ---------------------------------------------------------------------

  /** `(cloudToggle && cloudToggle.checked) ? 'cloud' : 'local'`; the
      toggle is absent (None) or present with its checked state. */
  function ModeFor(toggle: Option<bool>): (r: string)
    ensures r == "cloud" <==> toggle == Some(true)
    ensures r == "local" <==> toggle != Some(true)
  {
    if toggle.Some? && toggle.value then "cloud" else "local"
  }

  /** The body a button posts, `{mode: mode}`, selects on the server the mode
      the toggle shows. */
  lemma ModeReachesServer(toggle: Option<bool>)
    ensures IsCloud(JObject([("mode", JString(ModeFor(toggle)))])) == Some(toggle == Some(true))
  {
  }

  // ---------------------------------------------------------------------
  // Phase header
  // ---------------------------------------------------------------------

  /** `titles[phaseId] || ''`. */
  function Title(phaseId: int): (r: string)
    ensures r != "" <==> 0 <= phaseId <= 8
  {
    match phaseId
    case 0 => "Contexto"
    case 1 => "Inputs"
    case 2 => "Patrones"
    case 3 => "Ejes"
    case 4 => "Dimensiones"
    case 5 => "Tensiones"
    case 6 => "Diagnóstico"
    case 7 => "Arquetipo"
    case 8 => "Reporte"
    case _ => ""
  }

  /** The header text `Fase N: <title>`. */
  function PhaseHeader(phaseId: int): (r: string)
    ensures IsPrefix("Fase " + IntToString(phaseId) + ": ", r)
    ensures r[|"Fase " + IntToString(phaseId) + ": "|..] == Title(phaseId)
  {
    "Fase " + IntToString(phaseId) + ": " + Title(phaseId)
  }

  /** The nine phases have nine different titles. */
  lemma TitlesDistinct(a: int, b: int)
    requires 0 <= a <= 8 && 0 <= b <= 8 && a != b
    ensures Title(a) != Title(b)
  {
  }

  lemma {:induction false} NatToStringInjective(a: nat, b: nat)
    requires NatToString(a) == NatToString(b)
    ensures a == b
  {
    ParseNatToString(a);
    ParseNatToString(b);
  }

  lemma IntToStringInjective(a: int, b: int)
    requires IntToString(a) == IntToString(b)
    ensures a == b
  {
    if a < 0 && b < 0 {
      assert NatToString(-a) == IntToString(a)[1..];
      NatToStringInjective(-a, -b);
    } else if a >= 0 && b >= 0 {
      NatToStringInjective(a, b);
    }
  }

  /** Two texts cut at their first `": "` where the parts before it hold
      no colon have equal first parts. */
  lemma ColonSplit(x: string, y: string, x': string, y': string)
    requires x + ": " + y == x' + ": " + y'
    requires forall k :: 0 <= k < |x| ==> x[k] != ':'
    requires forall k :: 0 <= k < |x'| ==> x'[k] != ':'
    ensures x == x'
  {
    var h := x + ": " + y;
    assert h == x + (": " + y) && h == x' + (": " + y');
    FirstColonAfter(x, ": " + y);
    FirstColonAfter(x', ": " + y');
    assert x == h[..|x|] && x' == h[..|x'|];
  }

  /** The position of the first `:` in `s`, or `|s|` without one. */
  function FirstColon(s: string): (r: nat)
    ensures r <= |s|
  {
    if |s| == 0 || s[0] == ':' then 0 else 1 + FirstColon(s[1..])
  }

  lemma {:induction false} FirstColonAfter(x: string, rest: string)
    requires forall k :: 0 <= k < |x| ==> x[k] != ':'
    requires |rest| > 0 && rest[0] == ':'
    ensures FirstColon(x + rest) == |x|
    decreases |x|
  {
    if |x| > 0 {
      assert (x + rest)[0] == x[0] && (x + rest)[1..] == x[1..] + rest;
      FirstColonAfter(x[1..], rest);
    } else {
      assert x + rest == rest;
    }
  }

  lemma NoColonInNumber(n: int)
    ensures forall k :: 0 <= k < |IntToString(n)| ==> IntToString(n)[k] != ':'
  {
    if n < 0 {
      assert forall k :: 1 <= k < |IntToString(n)| ==> IntToString(n)[k] == NatToString(-n)[k - 1];
    }
  }

  /** The header names its phase: different phases show different headers. */
  lemma PhaseHeaderInjective(a: int, b: int)
    requires PhaseHeader(a) == PhaseHeader(b)
    ensures a == b
  {
    HeaderNumber(a, Title(a), b, Title(b));
  }

  lemma HeaderNumber(a: int, ta: string, b: int, tb: string)
    requires "Fase " + IntToString(a) + ": " + ta == "Fase " + IntToString(b) + ": " + tb
    ensures a == b
  {
    HeaderTail(IntToString(a), ta);
    HeaderTail(IntToString(b), tb);
    NumberBeforeColon(a, ta, b, tb);
  }

  lemma HeaderTail(x: string, t: string)
    ensures ("Fase " + x + ": " + t)[5..] == x + ": " + t
  {
  }

  lemma NumberBeforeColon(a: int, ta: string, b: int, tb: string)
    requires IntToString(a) + ": " + ta == IntToString(b) + ": " + tb
    ensures a == b
  {
    NoColonInNumber(a);
    NoColonInNumber(b);
    ColonSplit(IntToString(a), ta, IntToString(b), tb);
    IntToStringInjective(a, b);
  }

  // ---------------------------------------------------------------------
  // Pattern contradictions
  // ---------------------------------------------------------------------

  /** `p.contradictions !== 'Ninguna'`: any value but that exact string. */
  function ShowsContradictions(contradictions: Json): (r: bool)
    ensures r <==> contradictions != JString("Ninguna")
  {
    contradictions != Phase7.NoContradictions
  }

  /** A pattern the model gave without contradictions is shown without
      them, and one with contradictions other than `'Ninguna'` with them. */
  lemma ContradictionsOfSavedPattern(f: seq<(string, Json)>)
    ensures var d := Phase7.PatternStep(JObject(f)).record;
      ShowsContradictions(d.contradictions) <==>
        Lookup(f, "contradictions").Some? && Lookup(f, "contradictions").value != JString("Ninguna")
  {
    Phase7.PatternDefaults(f);
  }

  // ---------------------------------------------------------------------
  // Button loading state
  // ---------------------------------------------------------------------

  /** The parts of a button `setLoading` touches: the `loading` class, the
      `disabled` flag, `dataset.originalText` (None while unset) and the
      text of its `.btn-text` span (None when it has none). */
  datatype ButtonState = ButtonState(loading: bool, disabled: bool, originalText: Option<string>, caption: Option<string>)

  /** What `setLoading(btn, isLoading, loadingText)` makes of the button. The
      caption comes back only when `dataset.originalText` is truthy, that is
      set and not empty. */
  function Toggle(b: ButtonState, isLoading: bool, loadingText: string): (r: ButtonState)
    ensures r.loading == isLoading && r.disabled == isLoading && r.caption.Some? == b.caption.Some?
    ensures isLoading && b.caption.Some? ==> r.originalText == b.caption && r.caption == Some(loadingText)
    ensures !isLoading ==> r.originalText == b.originalText
    ensures !isLoading && b.caption.Some? && b.originalText.Some? && b.originalText.value != "" ==>
      r.caption == b.originalText
  {
    if isLoading then
      if b.caption.Some? then b.(loading := true, disabled := true, originalText := b.caption, caption := Some(loadingText))
      else b.(loading := true, disabled := true)
    else
      if b.caption.Some? && b.originalText.Some? && b.originalText.value != "" then
        b.(loading := false, disabled := false, caption := b.originalText)
      else b.(loading := false, disabled := false)
  }

  /** Loading then done gives back an enabled button with its caption, as long
      as the caption was not empty. */
  lemma ToggleRoundTrip(b: ButtonState, loadingText: string, idleText: string)
    requires b.caption.Some? ==> b.caption.value != ""
    ensures var r := Toggle(Toggle(b, true, loadingText), false, idleText);
      !r.loading && !r.disabled && r.caption == b.caption
  {
  }

  /** Loading then done on a button whose caption is empty leaves the loading
      text on it. */
  lemma ToggleLosesEmptyLabel()
    ensures var b := ButtonState(false, false, None, Some(""));
      Toggle(Toggle(b, true, "Procesando..."), false, "Procesando...").caption == Some("Procesando...")
  {
  }

  /** `setLoading` with the restore guarded by whether the text was saved at
      all, `btn.dataset.originalText !== undefined`. */
  function ToggleFixed(b: ButtonState, isLoading: bool, loadingText: string): (r: ButtonState)
    ensures r.loading == isLoading && r.disabled == isLoading && r.caption.Some? == b.caption.Some?
    ensures isLoading && b.caption.Some? ==> r.originalText == b.caption && r.caption == Some(loadingText)
    ensures !isLoading ==> r.originalText == b.originalText
    ensures !isLoading && b.caption.Some? && b.originalText.Some? ==> r.caption == b.originalText
  {
    if isLoading then
      if b.caption.Some? then b.(loading := true, disabled := true, originalText := b.caption, caption := Some(loadingText))
      else b.(loading := true, disabled := true)
    else
      if b.caption.Some? && b.originalText.Some? then b.(loading := false, disabled := false, caption := b.originalText)
      else b.(loading := false, disabled := false)
  }

  /** With the corrected guard every caption comes back, the empty one too. */
  lemma ToggleFixedRoundTrip(b: ButtonState, loadingText: string, idleText: string)
    ensures var r := ToggleFixed(ToggleFixed(b, true, loadingText), false, idleText);
      !r.loading && !r.disabled && r.caption == b.caption
  {
  }

  /** The two agree on every button whose saved text is not empty. */
  lemma ToggleFixedAgrees(b: ButtonState, isLoading: bool, loadingText: string)
    requires b.originalText != Some("")
    ensures ToggleFixed(b, isLoading, loadingText) == Toggle(b, isLoading, loadingText)
  {
  }

  /** A button element of the page. */
  class Button {
    var loading: bool
    var disabled: bool
    var originalText: Option<string>
    var caption: Option<string>

    constructor (caption: Option<string>)
      ensures State() == ButtonState(false, false, None, caption)
    {
      loading, disabled, originalText := false, false, None;
      this.caption := caption;
    }

    function State(): ButtonState
      reads this
    {
      ButtonState(loading, disabled, originalText, caption)
    }
  }

  /** `setLoading(btn, isLoading, loadingText)`; a missing button (`!btn`)
      is left alone. */
  method SetLoading(btn: Button?, isLoading: bool, loadingText: string)
    modifies btn
    ensures btn != null ==> btn.State() == Toggle(old(btn.State()), isLoading, loadingText)
  {
    if btn == null {
      return;
    }
    var hasText := btn.caption.Some?;
    if isLoading {
      btn.loading := true;
      btn.disabled := true;
      if hasText {
        btn.originalText := btn.caption;
        btn.caption := Some(loadingText);
      }
    } else {
      btn.loading := false;
      btn.disabled := false;
      if hasText && btn.originalText.Some? && btn.originalText.value != "" {
        btn.caption := btn.originalText;
      }
    }
  }
}
