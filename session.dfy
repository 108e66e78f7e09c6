/** The gesture session: a gesture starts on a key, collects touch points in the
    current detector, and on completion commits the detector's best candidate as
    composing text, offers the others as suggestions, and leaves the keyboard in
    the "performed gesture" state until the next key confirms the word.

    The host's text connection is a log of the calls made to it, and so are the
    calls into the keyboard's word handling (aborting a correction, showing
    suggestions, picking a suggestion). Which detector is current, and whether
    gesture typing is enabled, is read from the detector registry. */
module Session {
  import opened Wrappers
  import opened Registry

  datatype Point = Point(x: int, y: int)

  /** The properties of a key that decide whether a gesture may start on it. */
  datatype Key = Key(functional: bool, primaryCode: int)

  /** KeyCodes.SPACE and KeyCodes.ENTER. */
  const SPACE: int := 32
  const ENTER: int := 10

  /** TextEntryState, reduced to whether a gesture result awaits confirmation. */
  datatype EntryState = PerformedGesture | NotGesture

  /** A call made on the text connection or on the keyboard's word handling. */
  datatype TextOp =
    | BeginBatchEdit
    | EndBatchEdit
    | AbortCorrection
    | CommitText(text: string)
    | SetComposingText(text: string)
    | ShowSuggestions(words: seq<string>)
    | PickSuggestion(index: nat, word: string, withAutoSpace: bool)

  datatype SessionState = SessionState(
    paths: map<DetectorId, seq<Point>>,
    entryState: EntryState,
    typedWord: string,
    preferredWord: string,
    autoCapitalized: bool,
    ops: seq<TextOp>)

  function Idle(): (r: SessionState) {
    SessionState(map[], NotGesture, "", "", false, [])
  }

  /** The points a detector has collected for the gesture in progress. */
  function Path(s: SessionState, d: DetectorId): (r: seq<Point>) {
    if d in s.paths then s.paths[d] else []
  }

  // ---------------------------------------------------------------------------
  // Starting and feeding a gesture.

  /** isValidGestureTypingStart: functional keys, keys without a printable code,
      space and enter cannot start a gesture; every other key can. */
  function IsValidGestureTypingStart(key: Key): (valid: bool)
    ensures valid <==>
      !key.functional && key.primaryCode > 0 && key.primaryCode != SPACE && key.primaryCode != ENTER
  {
    if key.functional then false
    else if key.primaryCode <= 0 then false
    else !(key.primaryCode == SPACE || key.primaryCode == ENTER)
  }

  /** confirmLastGesture: a pending gesture result is picked as the first
      suggestion, as a manual pick would; with nothing pending, nothing happens. */
  function Confirmed(s: SessionState, withAutoSpace: bool): (r: SessionState) {
    if s.entryState == PerformedGesture then
      s.(ops := s.ops + [PickSuggestion(0, s.typedWord, withAutoSpace)], entryState := NotGesture)
    else s
  }

  function ClearGesture(s: SessionState, d: DetectorId): (r: SessionState) {
    s.(paths := s.paths[d := []])
  }

  /** onGestureTypingInput: one point for the current detector, if enabled. */
  function GestureInput(s: SessionState, enabled: bool, current: Option<DetectorId>, p: Point): (r: SessionState) {
    if !enabled then s
    else match current
      case None => s
      case Some(d) => s.(paths := s.paths[d := Path(s, d) + [p]])
  }

  /** onGestureTypingInputStart: whether the gesture started, and the state after. */
  function GestureInputStart(s: SessionState, enabled: bool, current: Option<DetectorId>,
                             key: Key, p: Point, prefsAutoSpace: bool): (r: (bool, SessionState))
  {
    if enabled && current.Some? && IsValidGestureTypingStart(key) then
      var confirmed := Confirmed(s, prefsAutoSpace);
      (true, GestureInput(ClearGesture(confirmed, current.value), enabled, current, p))
    else (false, s)
  }

  /** The gesture part of onKey: a printable key confirms a pending gesture
      result, with the automatic space unless the key is the space itself. */
  function KeyPressed(s: SessionState, enabled: bool, primaryCode: int, prefsAutoSpace: bool): (r: SessionState) {
    if enabled && s.entryState == PerformedGesture && primaryCode > 0 then
      Confirmed(s, primaryCode != SPACE && prefsAutoSpace)
    else s
  }

  // ---------------------------------------------------------------------------
  // Capitalising the candidates. The keyboard locale's toUpperCase is the
  // parameter `upper`; ToUpper, an ASCII upper-casing, is one instance of it.

  /** Upper case of one ASCII letter; any other character is kept. */
  function UpperChar(c: char): (r: char) {
    if 'a' <= c <= 'z' then (c as int - 32) as char else c
  }

  /** An instance of the locale's upper-casing that maps a-z to A-Z. */
  function ToUpper(word: string): (upper: string)
    ensures |upper| == |word| && forall i :: 0 <= i < |word| ==> upper[i] == UpperChar(word[i])
  {
    seq(|word|, i requires 0 <= i < |word| => UpperChar(word[i]))
  }

  /** Caps lock upper-cases the whole word; shift alone its first character. */
  function Capitalize(word: string, capsLocked: bool, upper: string -> string): (r: string)
    requires capsLocked || |word| > 0
  {
    if capsLocked then upper(word) else upper(word[..1]) + word[1..]
  }

  predicate NonEmptyWords(words: seq<string>) {
    forall i :: 0 <= i < |words| ==> |words[i]| > 0
  }

  /** Shift without caps lock takes the first character of every candidate. */
  predicate CanCapitalize(candidates: seq<string>, shifted: bool, capsLocked: bool, hasLocale: bool) {
    hasLocale && shifted && !capsLocked ==> NonEmptyWords(candidates)
  }

  function CasedCandidates(candidates: seq<string>, shifted: bool, capsLocked: bool, hasLocale: bool,
                           upper: string -> string): (r: seq<string>)
    requires CanCapitalize(candidates, shifted, capsLocked, hasLocale)
  {
    if hasLocale && (shifted || capsLocked) then
      seq(|candidates|, i requires 0 <= i < |candidates| => Capitalize(candidates[i], capsLocked, upper))
    else candidates
  }

  /** The loop of onGestureTypingInputDone that rewrites every candidate. */
  method CapitalizeCandidates(candidates: seq<string>, capsLocked: bool, upper: string -> string)
    returns (possibilities: seq<string>)
    requires capsLocked || NonEmptyWords(candidates)
    ensures |possibilities| == |candidates|
    ensures forall i :: 0 <= i < |candidates| ==> possibilities[i] == Capitalize(candidates[i], capsLocked, upper)
  {
    possibilities := candidates;
    var i := 0;
    while i < |possibilities|
      invariant 0 <= i <= |possibilities| == |candidates|
      invariant forall j :: 0 <= j < i ==> possibilities[j] == Capitalize(candidates[j], capsLocked, upper)
      invariant forall j :: i <= j < |candidates| ==> possibilities[j] == candidates[j]
    {
      var word := possibilities[i];
      if capsLocked {
        possibilities := possibilities[i := upper(word)];
      } else {
        possibilities := possibilities[i := upper(word[..1]) + word[1..]];
      }
      i := i + 1;
    }
  }

  // ---------------------------------------------------------------------------
  // Completing a gesture.

  /** Unicode general category Zs, space separators. */
  predicate IsSpaceSeparator(c: char) {
    var n := c as int;
    n == 0x20 || n == 0xA0 || n == 0x1680 || (0x2000 <= n <= 0x200A) || n == 0x202F || n == 0x205F || n == 0x3000
  }

  /** Unicode general categories Zl and Zp, the line and paragraph separators. */
  predicate IsLineOrParagraphSeparator(c: char) {
    c as int == 0x2028 || c as int == 0x2029
  }

  /** The no-break spaces, which Java does not count as whitespace. */
  predicate IsNoBreakSpace(c: char) {
    c as int == 0xA0 || c as int == 0x2007 || c as int == 0x202F
  }

  /** Tab, line feed, vertical tab, form feed, carriage return and the four
      information separators U+001C to U+001F. */
  predicate IsWhitespaceControl(c: char) {
    (9 <= c as int <= 13) || (28 <= c as int <= 31)
  }

  /** Character.isWhitespace, as one table of code points. */
  function IsJavaWhitespace(c: char): (whitespace: bool)
    ensures whitespace <==>
      || ((IsSpaceSeparator(c) || IsLineOrParagraphSeparator(c)) && !IsNoBreakSpace(c))
      || IsWhitespaceControl(c)
  {
    var n := c as int;
    || (9 <= n <= 13) || (28 <= n <= 32)
    || n == 0x1680 || (0x2000 <= n <= 0x2006) || (0x2008 <= n <= 0x200A)
    || n == 0x2028 || n == 0x2029 || n == 0x205F || n == 0x3000
  }

  /** A separating space goes before the gestured word unless the text before the
      cursor is empty or ends in whitespace, an apostrophe or a hyphen. */
  function NeedsSpace(textBefore: string): (needed: bool)
    ensures needed ==> |textBefore| > 0
    ensures |textBefore| > 0 ==>
      var last := textBefore[|textBefore| - 1];
      (needed <==> !IsJavaWhitespace(last) && last != '\'' && last != '-')
  {
    if |textBefore| == 0 then false
    else
      var lastCodePoint := textBefore[|textBefore| - 1];
      if IsJavaWhitespace(lastCodePoint) || lastCodePoint == '\'' || lastCodePoint == '-' then false
      else true
  }

  /** The calls of the batch edit that puts the first candidate in as composing text. */
  function CommitOps(possibilities: seq<string>, textBefore: string): (r: seq<TextOp>)
    requires |possibilities| > 0
  {
    [BeginBatchEdit, AbortCorrection]
    + (if NeedsSpace(textBefore) then [CommitText(" ")] else [])
    + [SetComposingText(possibilities[0]),
       ShowSuggestions(if |possibilities| > 1 then possibilities else []),
       EndBatchEdit]
  }

  function CommitGesture(s: SessionState, possibilities: seq<string>, autoCapitalized: bool, textBefore: string): (r: SessionState)
    requires |possibilities| > 0
  {
    var word := possibilities[0];
    s.(ops := s.ops + CommitOps(possibilities, textBefore),
       typedWord := word, preferredWord := word, autoCapitalized := autoCapitalized,
       entryState := PerformedGesture)
  }

  /** onGestureTypingInputDone, given what the detector, the shift key, the
      keyboard's locale and the text connection report. */
  function GestureInputDone(s: SessionState, enabled: bool, current: Option<DetectorId>, connected: bool,
                            candidates: seq<string>, shifted: bool, capsLocked: bool, hasLocale: bool,
                            upper: string -> string, textBefore: string): (r: SessionState)
    requires CanCapitalize(candidates, shifted, capsLocked, hasLocale)
  {
    if !enabled || !connected || current.None? then s
    else
      var committed :=
        if |candidates| == 0 then s
        else CommitGesture(s, CasedCandidates(candidates, shifted, capsLocked, hasLocale, upper),
                           shifted || capsLocked, textBefore);
      ClearGesture(committed, current.value)
  }

  // ---------------------------------------------------------------------------
  // Properties.

  /** The confirmation a gesture start performs is the one typing its key would
      perform: a valid start key is printable and is not the space key. */
  lemma StartConfirmsAsKeyWould(s: SessionState, d: DetectorId, key: Key, p: Point, prefsAutoSpace: bool)
    requires IsValidGestureTypingStart(key)
    ensures var (_, r) := GestureInputStart(s, true, Some(d), key, p, prefsAutoSpace);
      var typed := KeyPressed(s, true, key.primaryCode, prefsAutoSpace);
      r.ops == typed.ops && r.entryState == typed.entryState
  {
  }

  /** A gesture starts exactly when gesture typing is enabled, a detector is
      current and the key is valid; then the detector's path is the one start
      point. Otherwise nothing changes. */
  lemma StartGuard(s: SessionState, enabled: bool, current: Option<DetectorId>, key: Key, p: Point, prefsAutoSpace: bool)
    ensures var (started, r) := GestureInputStart(s, enabled, current, key, p, prefsAutoSpace);
      && (started <==> enabled && current.Some? && IsValidGestureTypingStart(key))
      && (started ==> Path(r, current.value) == [p] && r.entryState == NotGesture
                      && r.ops == Confirmed(s, prefsAutoSpace).ops)
      && (!started ==> r == s)
  {
  }

  /** A point is added only while enabled with a current detector, and then to
      that detector's path alone. */
  lemma InputAppendsOnePoint(s: SessionState, enabled: bool, current: Option<DetectorId>, p: Point)
    ensures var r := GestureInput(s, enabled, current, p);
      && (!enabled || current.None? ==> r == s)
      && (enabled && current.Some? ==>
            && Path(r, current.value) == Path(s, current.value) + [p]
            && (forall d :: d != current.value ==> Path(r, d) == Path(s, d))
            && r.ops == s.ops && r.entryState == s.entryState)
  {
  }

  /** Confirming is a no-op when no gesture result is pending, so a second
      confirmation changes nothing. */
  lemma ConfirmIsIdempotent(s: SessionState, first: bool, second: bool)
    ensures Confirmed(Confirmed(s, first), second) == Confirmed(s, first)
    ensures s.entryState == PerformedGesture ==>
      Confirmed(s, first).ops == s.ops + [PickSuggestion(0, s.typedWord, first)]
  {
  }

  /** Typing a printable key after a gesture confirms it, with the automatic
      space only for keys other than space. */
  lemma KeyConfirmsGesture(s: SessionState, primaryCode: int, prefsAutoSpace: bool)
    requires s.entryState == PerformedGesture && primaryCode > 0
    ensures KeyPressed(s, true, primaryCode, prefsAutoSpace).ops
      == s.ops + [PickSuggestion(0, s.typedWord, primaryCode != SPACE && prefsAutoSpace)]
    ensures KeyPressed(s, true, primaryCode, prefsAutoSpace).entryState == NotGesture
  {
  }

  /** Capitalising keeps the number and order of the candidates: caps lock
      upper-cases every candidate as a whole, shift alone upper-cases the first
      character of each and keeps the rest, and with neither (or without a
      locale) nothing changes. */
  lemma CapitalizationRules(candidates: seq<string>, shifted: bool, capsLocked: bool, hasLocale: bool,
                            upper: string -> string)
    requires CanCapitalize(candidates, shifted, capsLocked, hasLocale)
    ensures var r := CasedCandidates(candidates, shifted, capsLocked, hasLocale, upper);
      && |r| == |candidates|
      && (hasLocale && capsLocked ==> forall i :: 0 <= i < |r| ==> r[i] == upper(candidates[i]))
      && (hasLocale && shifted && !capsLocked ==>
            forall i :: 0 <= i < |r| ==> r[i] == upper(candidates[i][..1]) + candidates[i][1..])
      && (!hasLocale || (!shifted && !capsLocked) ==> r == candidates)
  {
  }

  /** With an upper-casing that maps one character to one character, shift keeps
      every candidate's length and changes at most its first character. */
  lemma AsciiShiftKeepsLength(candidates: seq<string>)
    requires NonEmptyWords(candidates)
    ensures var r := CasedCandidates(candidates, true, false, true, ToUpper);
      && |r| == |candidates|
      && forall i :: 0 <= i < |r| ==>
           |r[i]| == |candidates[i]| && r[i][0] == UpperChar(candidates[i][0])
           && r[i][1..] == candidates[i][1..]
  {
    var r := CasedCandidates(candidates, true, false, true, ToUpper);
    forall i | 0 <= i < |r|
      ensures |r[i]| == |candidates[i]| && r[i][0] == UpperChar(candidates[i][0])
      ensures r[i][1..] == candidates[i][1..]
    {
      var w := candidates[i];
      assert r[i] == ToUpper(w[..1]) + w[1..];
    }
  }

  lemma CapitalizationExamples()
    ensures CasedCandidates(["hello", "world"], true, false, true, ToUpper) == ["Hello", "World"]
    ensures CasedCandidates(["hello", "world"], true, true, true, ToUpper) == ["HELLO", "WORLD"]
    ensures CasedCandidates(["hello", "world"], false, false, true, ToUpper) == ["hello", "world"]
  {
    assert "hello"[..1] == "h" && "world"[..1] == "w";
    assert ToUpper("h") == "H" && ToUpper("w") == "W";
    assert ToUpper("hello") == "HELLO";
    assert ToUpper("world") == "WORLD";
    assert Capitalize("hello", false, ToUpper) == "Hello";
    assert Capitalize("world", false, ToUpper) == "World";
    var shifted := CasedCandidates(["hello", "world"], true, false, true, ToUpper);
    assert |shifted| == 2 && shifted[0] == "Hello" && shifted[1] == "World";
    var locked := CasedCandidates(["hello", "world"], true, true, true, ToUpper);
    assert |locked| == 2 && locked[0] == "HELLO" && locked[1] == "WORLD";
  }

  lemma SpaceRuleExamples()
    ensures NeedsSpace("don")
    ensures !NeedsSpace("don'")
    ensures !NeedsSpace("")
    ensures !NeedsSpace("well-") && !NeedsSpace("so ") && !NeedsSpace("end\n")
  {
  }

  /** Completing a gesture with candidates commits the batch edit of CommitOps
      for the capitalised candidates, remembers the first of them as the typed and
      preferred word, leaves the gesture pending confirmation and clears the
      detector's path. */
  lemma DoneCommitsFirstCandidate(s: SessionState, d: DetectorId, candidates: seq<string>,
                                  shifted: bool, capsLocked: bool, hasLocale: bool, upper: string -> string,
                                  textBefore: string)
    requires |candidates| > 0 && CanCapitalize(candidates, shifted, capsLocked, hasLocale)
    ensures var r := GestureInputDone(s, true, Some(d), true, candidates, shifted, capsLocked, hasLocale, upper,
                                      textBefore);
      var cased := CasedCandidates(candidates, shifted, capsLocked, hasLocale, upper);
      && |cased| == |candidates|
      && r.ops == s.ops + CommitOps(cased, textBefore)
      && r.typedWord == cased[0] && r.preferredWord == cased[0]
      && r.autoCapitalized == (shifted || capsLocked)
      && r.entryState == PerformedGesture
      && Path(r, d) == []
  {
    CapitalizationRules(candidates, shifted, capsLocked, hasLocale, upper);
  }

  /** The batch edit begins by aborting any correction and ends the edit; it
      commits a space exactly when NeedsSpace says so, composes the first
      candidate, and shows the candidates as suggestions only when there is more
      than one, clearing the suggestions otherwise. */
  lemma CommitOpsShape(possibilities: seq<string>, textBefore: string)
    requires |possibilities| > 0
    ensures var added := CommitOps(possibilities, textBefore);
      && added[..2] == [BeginBatchEdit, AbortCorrection]
      && added[|added| - 1] == EndBatchEdit
      && (CommitText(" ") in added <==> NeedsSpace(textBefore))
      && SetComposingText(possibilities[0]) in added
      && (ShowSuggestions(possibilities) in added <==> |possibilities| > 1)
      && (ShowSuggestions([]) in added <==> |possibilities| == 1)
  {
    var added := CommitOps(possibilities, textBefore);
    var space: seq<TextOp> := if NeedsSpace(textBefore) then [CommitText(" ")] else [];
    var shown := if |possibilities| > 1 then possibilities else [];
    assert added == [BeginBatchEdit, AbortCorrection] + space
                    + [SetComposingText(possibilities[0]), ShowSuggestions(shown), EndBatchEdit];
    assert added[|added| - 3] == SetComposingText(possibilities[0]);
    assert added[|added| - 2] == ShowSuggestions(shown);
  }

  /** With no candidates nothing is committed; only the path is cleared. */
  lemma DoneWithoutCandidates(s: SessionState, d: DetectorId, shifted: bool, capsLocked: bool,
                              hasLocale: bool, upper: string -> string, textBefore: string)
    ensures GestureInputDone(s, true, Some(d), true, [], shifted, capsLocked, hasLocale, upper, textBefore)
      == ClearGesture(s, d)
  {
  }

  /** Disabled, without a current detector or without a text connection,
      completing a gesture changes nothing. */
  lemma DoneNeedsDetectorAndConnection(s: SessionState, enabled: bool, current: Option<DetectorId>, connected: bool,
                                       candidates: seq<string>, shifted: bool, capsLocked: bool, hasLocale: bool,
                                       upper: string -> string, textBefore: string)
    requires CanCapitalize(candidates, shifted, capsLocked, hasLocale)
    requires !enabled || current.None? || !connected
    ensures GestureInputDone(s, enabled, current, connected, candidates, shifted, capsLocked, hasLocale, upper,
                             textBefore) == s
  {
  }

  /** Start on a disabled keyboard captures nothing; start, two moves and
      completion with the candidates "cat" and "car" after "the" compose "cat"
      behind a space and offer both words. */
  lemma GestureScenario(s: SessionState, d: DetectorId, key: Key, p0: Point, p1: Point, p2: Point)
    requires IsValidGestureTypingStart(key) && s.entryState == NotGesture
    ensures GestureInputStart(s, false, Some(d), key, p0, true) == (false, s)
    ensures var (started, s1) := GestureInputStart(s, true, Some(d), key, p0, true);
      var s3 := GestureInput(GestureInput(s1, true, Some(d), p1), true, Some(d), p2);
      var r := GestureInputDone(s3, true, Some(d), true, ["cat", "car"], false, false, true, ToUpper, "the");
      && started && Path(s3, d) == [p0, p1, p2]
      && r.ops == s.ops + [BeginBatchEdit, AbortCorrection, CommitText(" "), SetComposingText("cat"),
                           ShowSuggestions(["cat", "car"]), EndBatchEdit]
      && r.entryState == PerformedGesture && r.typedWord == "cat" && Path(r, d) == []
  {
    assert NeedsSpace("the");
  }

  // ---------------------------------------------------------------------------
  // The session as the keyboard service holds it.

  class GestureSession {
    const registry: DetectorRegistry
    var paths: map<DetectorId, seq<Point>>
    var entryState: EntryState
    var typedWord: string
    var preferredWord: string
    var autoCapitalized: bool
    var ops: seq<TextOp>

    function State(): (r: SessionState)
      reads this
    {
      SessionState(paths, entryState, typedWord, preferredWord, autoCapitalized, ops)
    }

    constructor (registry: DetectorRegistry)
      ensures this.registry == registry && State() == Idle()
    {
      this.registry := registry;
      paths, entryState, typedWord, preferredWord := map[], NotGesture, "", "";
      autoCapitalized, ops := false, [];
    }

    method ConfirmLastGesture(withAutoSpace: bool)
      modifies this
      ensures State() == Confirmed(old(State()), withAutoSpace)
    {
      if entryState == PerformedGesture {
        ops := ops + [PickSuggestion(0, typedWord, withAutoSpace)];
        entryState := NotGesture;
      }
    }

    method OnGestureTypingInput(p: Point)
      modifies this
      ensures State() == GestureInput(old(State()), registry.enabled, registry.current, p)
    {
      if !registry.enabled {
        return;
      }
      var currentDetector := registry.current;
      if currentDetector.Some? {
        var d := currentDetector.value;
        paths := paths[d := Path(State(), d) + [p]];
      }
    }

    method OnGestureTypingInputStart(p: Point, key: Key, prefsAutoSpace: bool) returns (started: bool)
      modifies this
      ensures (started, State()) == GestureInputStart(old(State()), registry.enabled, registry.current, key, p, prefsAutoSpace)
    {
      var currentDetector := registry.current;
      if registry.enabled && currentDetector.Some? && IsValidGestureTypingStart(key) {
        ConfirmLastGesture(prefsAutoSpace);
        paths := paths[currentDetector.value := []];
        OnGestureTypingInput(p);
        return true;
      }
      return false;
    }

    method OnKey(primaryCode: int, prefsAutoSpace: bool)
      modifies this
      ensures State() == KeyPressed(old(State()), registry.enabled, primaryCode, prefsAutoSpace)
    {
      if registry.enabled && entryState == PerformedGesture && primaryCode > 0 {
        ConfirmLastGesture(primaryCode != SPACE && prefsAutoSpace);
      }
    }

    /** The batch edit of onGestureTypingInputDone. */
    method CommitFirstCandidate(possibilities: seq<string>, autoCapitalize: bool, textBefore: string)
      requires |possibilities| > 0
      modifies this
      ensures State() == CommitGesture(old(State()), possibilities, autoCapitalize, textBefore)
    {
      ops := ops + [BeginBatchEdit, AbortCorrection];
      var word := possibilities[0];
      typedWord := word;
      autoCapitalized := autoCapitalize;
      preferredWord := typedWord;
      if |textBefore| == 0 {
        // beginning of the text: no space
      } else {
        var lastCodePoint := textBefore[|textBefore| - 1];
        if IsJavaWhitespace(lastCodePoint) || lastCodePoint == '\'' || lastCodePoint == '-' {
          // a separator already: no space
        } else {
          ops := ops + [CommitText(" ")];
        }
      }
      ops := ops + [SetComposingText(typedWord)];
      entryState := PerformedGesture;
      if |possibilities| > 1 {
        ops := ops + [ShowSuggestions(possibilities)];
      } else {
        ops := ops + [ShowSuggestions([])];
      }
      ops := ops + [EndBatchEdit];
    }

    method OnGestureTypingInputDone(connected: bool, candidates: seq<string>, shifted: bool, capsLocked: bool,
                                    hasLocale: bool, upper: string -> string, textBefore: string)
      requires CanCapitalize(candidates, shifted, capsLocked, hasLocale)
      modifies this
      ensures State() == GestureInputDone(old(State()), registry.enabled, registry.current, connected,
                                          candidates, shifted, capsLocked, hasLocale, upper, textBefore)
    {
      if !registry.enabled {
        return;
      }
      var currentDetector := registry.current;
      if connected && currentDetector.Some? {
        var possibilities := candidates;
        if |possibilities| > 0 {
          if hasLocale && (shifted || capsLocked) {
            possibilities := CapitalizeCandidates(possibilities, capsLocked, upper);
          }
          assert possibilities == CasedCandidates(candidates, shifted, capsLocked, hasLocale, upper);
          CommitFirstCandidate(possibilities, shifted || capsLocked, textBefore);
        }
        paths := paths[currentDetector.value := []];
      }
    }
  }
}
