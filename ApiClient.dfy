/**
 * The pure helpers of the client's service layer: reshaping a detection result and an
 * instruction set for the AR view, the line-oriented parser that turns a model's
 * free-text answer into numbered steps, the error-to-message mapping, and the
 * predefined assembly guide.
 *
 * The parser follows the two regular expressions it is built on exactly: `\s` is the
 * ECMAScript white-space set (the one `trim` removes), `\d` is `0-9`, and the `i`
 * flag makes "step" match in any ASCII letter case.
 */
module ApiClient {
  import opened JsText
  import Server

  // ---------------------------------------------------------------------------
  // utils.formatDetectionResult

  /** The fields of a recognition response that the client reads; absent fields are None. */
  datatype DetectionResponse = DetectionResponse(
    deviceModel: Option<string>,
    deviceType: Option<string>,
    instructionSetId: Option<string>,
    confidence: Option<int>,
    detectedObjects: Option<seq<string>>)

  /** The camel-cased result; every field is copied as it is, absent or not. */
  datatype Detection = Detection(
    deviceModel: Option<string>,
    deviceType: Option<string>,
    instructionSetId: Option<string>,
    confidence: Option<int>,
    detectedObjects: Option<seq<string>>)

  function FormatDetectionResult(r: DetectionResponse): Detection
  {
    Detection(r.deviceModel, r.deviceType, r.instructionSetId, r.confidence, r.detectedObjects)
  }

  /** What a successful `/api/recognize-device` answer carries, as the client sees it. */
  function FromRecognizeBody(b: Server.RecognizeBody): DetectionResponse
  {
    match b
    case PhoneRecognized(model, deviceType, id, objects, confidence, _, _, _) =>
      DetectionResponse(Some(model), Some(deviceType), Some(id), Some(confidence), Some(objects))
    case _ => DetectionResponse(None, None, None, None, None)
  }

  /**
   * Formatting a recognised phone sends the client to the problem selector with the
   * classifier's confidence and the objects it was given.
   */
  lemma DetectionOfRecognizedPhone(objects: seq<string>)
    requires Server.Classify(objects).Some?
    ensures var d := FormatDetectionResult(FromRecognizeBody(Server.RecognizeDevice(Some(objects)).body));
      && d.instructionSetId == Some(Server.SelectorId)
      && d.deviceType == Some("mobile_phone")
      && d.confidence == Some(Server.Classify(objects).value.confidence)
      && d.detectedObjects == Some(objects)
  {
  }

  // ---------------------------------------------------------------------------
  // utils.formatInstructionsForAR

  /** A step as the client receives it; `duration == 0` stands for every falsy value. */
  datatype WireStep = WireStep(
    step: int,
    title: string,
    description: string,
    position: Option<seq<real>>,
    asset: string,
    voiceover: string,
    highlight: string,
    duration: int)

  datatype WireInstructions = WireInstructions(totalSteps: int, estimatedTime: int, steps: seq<WireStep>)

  datatype ArStep = ArStep(
    id: int,
    title: string,
    description: string,
    position: seq<real>,
    asset: string,
    voiceover: string,
    highlight: string,
    duration: int,
    isCompleted: bool,
    isActive: bool)

  datatype ArInstructions = ArInstructions(totalSteps: int, estimatedTime: int, steps: seq<ArStep>)

  const DefaultPosition: seq<real> := [0.0, 0.0, -1.0]
  const DefaultDuration: int := 3000

  /** The mapping callback for the step at `index`. */
  function FormatStep(s: WireStep, index: int): ArStep
  {
    ArStep(s.step, s.title, s.description,
           if s.position.Some? then s.position.value else DefaultPosition,
           s.asset, s.voiceover, s.highlight,
           if s.duration != 0 then s.duration else DefaultDuration,
           false, index == 0)
  }

  function FormatSteps(steps: seq<WireStep>, from: nat): (r: seq<ArStep>)
    ensures |r| == |steps|
    ensures forall k :: 0 <= k < |steps| ==> r[k] == FormatStep(steps[k], from + k)
  {
    if steps == [] then [] else [FormatStep(steps[0], from)] + FormatSteps(steps[1..], from + 1)
  }

  function FormatInstructionsForAR(w: WireInstructions): ArInstructions
  {
    ArInstructions(w.totalSteps, w.estimatedTime, FormatSteps(w.steps, 0))
  }

  /**
   * Count and order are kept; each step's id is its `step` number, a falsy duration
   * becomes 3000 and a missing position [0, 0, -1]; only the first step is active and
   * none is completed.
   */
  lemma FormatInstructionsShape(w: WireInstructions)
    ensures var r := FormatInstructionsForAR(w);
      && r.totalSteps == w.totalSteps && r.estimatedTime == w.estimatedTime
      && |r.steps| == |w.steps|
      && forall k :: 0 <= k < |w.steps| ==>
           && r.steps[k].id == w.steps[k].step
           && r.steps[k].title == w.steps[k].title && r.steps[k].description == w.steps[k].description
           && r.steps[k].asset == w.steps[k].asset && r.steps[k].voiceover == w.steps[k].voiceover
           && r.steps[k].highlight == w.steps[k].highlight
           && (w.steps[k].duration != 0 ==> r.steps[k].duration == w.steps[k].duration)
           && (w.steps[k].duration == 0 ==> r.steps[k].duration == DefaultDuration)
           && (w.steps[k].position.Some? ==> r.steps[k].position == w.steps[k].position.value)
           && (w.steps[k].position.None? ==> r.steps[k].position == DefaultPosition)
           && !r.steps[k].isCompleted
           && (r.steps[k].isActive <==> k == 0)
  {
  }

  /** A stored step as it travels to the client. */
  function FromServerStep(s: Server.InstructionStep): WireStep
  {
    WireStep(s.step, s.title, s.description, Some(s.position), s.asset, s.voiceover, s.highlight, s.duration)
  }

  function FromServerSteps(steps: seq<Server.InstructionStep>): (r: seq<WireStep>)
    ensures |r| == |steps| && forall k :: 0 <= k < |steps| ==> r[k] == FromServerStep(steps[k])
  {
    if steps == [] then [] else [FromServerStep(steps[0])] + FromServerSteps(steps[1..])
  }

  /**
   * An instruction set fetched by id and formatted: its steps get ids 1, 2, 3, keep
   * the stored durations (all positive, so no default applies), and the totals are
   * the server's. Every entry of the served table meets the requirements
   * (`Server.ServedTableConsistent`, `Server.TableWellFormed`).
   */
  lemma FormattedEntry(t: seq<Server.Entry>, i: nat)
    requires Server.DistinctIds(t) && i < |t| && Server.WellFormedSet(t[i].instructions)
    requires t[i].key != [] && t[i].instructions.instructionSetId != Server.SelectorId
    ensures var e := t[i];
      var r := Server.Instructions(t, e.instructions.instructionSetId);
      var f := FormatInstructionsForAR(WireInstructions(r.body.totalSteps, r.body.estimatedTime, FromServerSteps(r.body.steps)));
      && |f.steps| == f.totalSteps == 3
      && f.estimatedTime == Server.SumDurations(e.instructions.steps)
      && forall k :: 0 <= k < 3 ==> f.steps[k].id == k + 1 && f.steps[k].duration == e.instructions.steps[k].duration > 0
  {
    var e := t[i];
    var id := e.instructions.instructionSetId;
    Server.FindByIdAt(t, i);
    var steps := e.instructions.steps;
    var r := Server.Instructions(t, id);
    assert r.body.steps == steps && r.body.totalSteps == |steps| == 3;
    assert r.body.estimatedTime == Server.SumDurations(steps);
    var w := WireInstructions(r.body.totalSteps, r.body.estimatedTime, FromServerSteps(r.body.steps));
    var f := FormatInstructionsForAR(w);
    forall k | 0 <= k < |steps|
      ensures k < |f.steps| && f.steps[k].id == k + 1 && f.steps[k].duration == steps[k].duration > 0
    {
      assert w.steps[k] == FromServerStep(steps[k]);
      assert f.steps[k] == FormatStep(w.steps[k], k);
    }
  }

  // ---------------------------------------------------------------------------
  // utils.parseAssemblyInstructions: the two regular expressions

  /** The first index at or after `i` that `\s` does not match. */
  function SkipSpaces(s: string, i: nat): (j: nat)
    requires i <= |s|
    ensures i <= j <= |s| && (j < |s| ==> !IsJsSpace(s[j]))
    decreases |s| - i
  {
    if i < |s| && IsJsSpace(s[i]) then SkipSpaces(s, i + 1) else i
  }

  /** The first index at or after `i` that `\d` does not match. */
  function DigitsEnd(s: string, i: nat): (j: nat)
    requires i <= |s|
    ensures i <= j <= |s| && (j < |s| ==> !IsDigit(s[j]))
    decreases |s| - i
  {
    if i < |s| && IsDigit(s[i]) then DigitsEnd(s, i + 1) else i
  }

  /** The length of the match of `^(step|#)` under the `i` flag; 0 when there is none. */
  function KeywordLength(t: string): (k: nat)
    ensures k <= |t|
  {
    if |t| >= 4 && LowerChar(t[0]) == 's' && LowerChar(t[1]) == 't' && LowerChar(t[2]) == 'e' && LowerChar(t[3]) == 'p' then 4
    else if t != [] && t[0] == '#' then 1
    else 0
  }

  /** Where a match of `^\d+\.` ends, if the text starts with one. */
  function NumberDotEnd(t: string): (e: Option<nat>)
    ensures e.Some? ==> 2 <= e.value <= |t|
  {
    var d := DigitsEnd(t, 0);
    if 0 < d < |t| && t[d] == '.' then Some(d + 1) else None
  }

  /** `/^(step|#)\s*\d+/i.test(t) || /^\d+\./.test(t)` */
  predicate IsHeader(t: string)
  {
    || (KeywordLength(t) > 0 && var j := SkipSpaces(t, KeywordLength(t)); j < |t| && IsDigit(t[j]))
    || NumberDotEnd(t).Some?
  }

  /** Where a match of `^(step|#)\s*\d+[:.]` (flag `i`) ends, if the text starts with one. */
  function StepPrefixEnd(t: string): (e: Option<nat>)
    ensures e.Some? ==> 0 < e.value <= |t|
  {
    var k := KeywordLength(t);
    if k == 0 then None
    else
      var j := SkipSpaces(t, k);
      var e := DigitsEnd(t, j);
      if j < e < |t| && (t[e] == ':' || t[e] == '.') then Some(e + 1) else None
  }

  function DropPrefix(t: string, e: Option<nat>): string
    requires e.Some? ==> e.value <= |t|
  {
    if e.Some? then t[e.value..] else t
  }

  /** `t.replace(/^(step|#)\s*\d+[:.]/i, '').replace(/^\d+\./, '').trim()` */
  function StripTitle(t: string): string
  {
    var a := DropPrefix(t, StepPrefixEnd(t));
    Trim(DropPrefix(a, NumberDotEnd(a)))
  }

  predicate Spaces(s: string, i: int, j: int)
  {
    0 <= i <= j <= |s| && forall k :: i <= k < j ==> IsJsSpace(s[k])
  }

  predicate Digits(s: string, i: int, j: int)
  {
    0 <= i <= j <= |s| && forall k :: i <= k < j ==> IsDigit(s[k])
  }

  /**
   * The header test read as the regular expressions say it, with the positions the
   * matcher is free to choose: a keyword, some white space, then a digit; or at least
   * one digit and then a full stop.
   */
  ghost predicate HeaderByPattern(t: string)
  {
    || (KeywordLength(t) > 0 && exists j :: Spaces(t, KeywordLength(t), j) && j < |t| && IsDigit(t[j]))
    || (exists d :: 0 < d < |t| && Digits(t, 0, d) && t[d] == '.')
  }

  /** Everything greedy white-space skipping passes over is white space. */
  lemma {:induction false} SkipSpacesSpaces(s: string, i: nat)
    requires i <= |s|
    ensures Spaces(s, i, SkipSpaces(s, i))
    decreases |s| - i
  {
    if i < |s| && IsJsSpace(s[i]) {
      SkipSpacesSpaces(s, i + 1);
    }
  }

  /** Everything greedy digit matching passes over is a digit. */
  lemma {:induction false} DigitsEndDigits(s: string, i: nat)
    requires i <= |s|
    ensures Digits(s, i, DigitsEnd(s, i))
    decreases |s| - i
  {
    if i < |s| && IsDigit(s[i]) {
      DigitsEndDigits(s, i + 1);
    }
  }

  /** Greedy white-space skipping stops at the first character `\s` does not match. */
  lemma {:induction false} SkipSpacesStops(s: string, i: nat, j: nat)
    requires i <= j < |s| && Spaces(s, i, j) && !IsJsSpace(s[j])
    ensures SkipSpaces(s, i) == j
    decreases j - i
  {
    if i < j {
      SkipSpacesStops(s, i + 1, j);
    }
  }

  /** Greedy digit matching stops at the first character `\d` does not match. */
  lemma {:induction false} DigitsStop(s: string, i: nat, j: nat)
    requires i <= j < |s| && Digits(s, i, j) && !IsDigit(s[j])
    ensures DigitsEnd(s, i) == j
    decreases j - i
  {
    if i < j {
      DigitsStop(s, i + 1, j);
    }
  }

  /** The greedy test agrees with the pattern, in both directions. */
  lemma IsHeaderIff(t: string)
    ensures IsHeader(t) <==> HeaderByPattern(t)
  {
    var k := KeywordLength(t);
    if k > 0 {
      if exists j :: Spaces(t, k, j) && j < |t| && IsDigit(t[j]) {
        var j :| Spaces(t, k, j) && j < |t| && IsDigit(t[j]);
        SkipSpacesStops(t, k, j);
      }
      var j0 := SkipSpaces(t, k);
      SkipSpacesSpaces(t, k);
    }
    if exists d :: 0 < d < |t| && Digits(t, 0, d) && t[d] == '.' {
      var d :| 0 < d < |t| && Digits(t, 0, d) && t[d] == '.';
      DigitsStop(t, 0, d);
    }
    DigitsEndDigits(t, 0);
  }

  /** Lines that start with `**` (bold Markdown) are never step headers. */
  lemma BoldIsNotHeader(t: string)
    requires StartsWith(t, "**")
    ensures !IsHeader(t)
  {
    assert DigitsEnd(t, 0) == 0;
  }

  /** A header with `:` or `.` after its number loses that prefix; one without keeps it. */
  lemma StripTitleCases(t: string)
    requires IsHeader(t) && KeywordLength(t) > 0
    ensures StepPrefixEnd(t).Some? ==> StripTitle(t) == Trim(DropPrefix(t[StepPrefixEnd(t).value..], NumberDotEnd(t[StepPrefixEnd(t).value..])))
    ensures StepPrefixEnd(t).None? ==> StripTitle(t) == Trim(t)
  {
    if StepPrefixEnd(t).None? {
      assert !IsDigit(t[0]) by {
        if KeywordLength(t) == 4 {
          assert t[..4][0] == t[0];
          assert LowerChar(t[0]) == 's';
        }
      }
      assert DigitsEnd(t, 0) == 0;
    }
  }

  // ---------------------------------------------------------------------------
  // utils.parseAssemblyInstructions: the loop

  datatype ParsedStep = ParsedStep(step: int, title: string, description: string, duration: int)

  datatype ParsedInstructions = ParsedInstructions(totalSteps: int, estimatedTime: int, steps: seq<ParsedStep>)

  const StepDuration: int := 5000

  /** A line that is added to the current step's description (once trimmed). */
  predicate IsContent(t: string)
  {
    t != [] && !StartsWith(t, "**") && !StartsWith(t, "#")
  }

  /** What the loop makes of one line: a new step with its title, description text, or nothing. */
  datatype LineKind = HeaderLine(title: string) | ContentLine(text: string) | SkippedLine

  function KindOf(line: string): (k: LineKind)
    ensures k.ContentLine? ==> k.text != []
  {
    var t := Trim(line);
    if IsHeader(t) then HeaderLine(StripTitle(t))
    else if IsContent(t) then ContentLine(t)
    else SkippedLine
  }

  function Kinds(lines: seq<string>): (ks: seq<LineKind>)
    ensures |ks| == |lines|
  {
    if lines == [] then [] else Kinds(lines[..|lines| - 1]) + [KindOf(lines[|lines| - 1])]
  }

  /** Each line is classified on its own. */
  lemma {:induction false} KindsAt(lines: seq<string>, k: int)
    requires 0 <= k < |lines|
    ensures Kinds(lines)[k] == KindOf(lines[k])
  {
    if k < |lines| - 1 {
      KindsAt(lines[..|lines| - 1], k);
    }
  }

  /** The loop's variables: the pushed steps, `currentStep` and `stepCounter`. */
  datatype ParseState = ParseState(done: seq<ParsedStep>, current: Option<ParsedStep>, counter: int)

  const Start: ParseState := ParseState([], None, 1)

  /** The pushed steps and the one being built. */
  function AllSteps(st: ParseState): seq<ParsedStep>
  {
    st.done + if st.current.Some? then [st.current.value] else []
  }

  /** One iteration of the loop. */
  function Feed(st: ParseState, kind: LineKind): ParseState
  {
    match kind
    case HeaderLine(title) => ParseState(AllSteps(st), Some(ParsedStep(st.counter, title, "", StepDuration)), st.counter + 1)
    case ContentLine(t) =>
      if st.current.Some? then
        var cur := st.current.value;
        st.(current := Some(cur.(description := cur.description + (if cur.description != [] then " " else "") + t)))
      else st
    case SkippedLine => st
  }

  function FeedAll(st: ParseState, kinds: seq<LineKind>): ParseState
  {
    if kinds == [] then st else Feed(FeedAll(st, kinds[..|kinds| - 1]), kinds[|kinds| - 1])
  }

  function SumParsed(steps: seq<ParsedStep>): int
  {
    if steps == [] then 0 else SumParsed(steps[..|steps| - 1]) + steps[|steps| - 1].duration
  }

  function Finish(st: ParseState): ParsedInstructions
  {
    var steps := AllSteps(st);
    ParsedInstructions(|steps|, SumParsed(steps), steps)
  }

  /** `parseAssemblyInstructions(text)` */
  function Parse(text: string): ParsedInstructions
  {
    Finish(FeedAll(Start, Kinds(Split(text, '\n'))))
  }

  /** One line of the loop, as the source writes it on the trimmed line. */
  function FeedLine(st: ParseState, trimmed: string): ParseState
  {
    if IsHeader(trimmed) then
      ParseState(AllSteps(st), Some(ParsedStep(st.counter, StripTitle(trimmed), "", StepDuration)), st.counter + 1)
    else if st.current.Some? && IsContent(trimmed) then
      var cur := st.current.value;
      st.(current := Some(cur.(description := cur.description + (if cur.description != [] then " " else "") + trimmed)))
    else st
  }

  lemma FeedLineIsFeed(st: ParseState, line: string)
    ensures FeedLine(st, Trim(line)) == Feed(st, KindOf(line))
  {
  }

  /** The loop's state after one more line. */
  lemma FeedNextLine(lines: seq<string>, i: int)
    requires 0 <= i < |lines|
    ensures FeedAll(Start, Kinds(lines[..i + 1])) == FeedLine(FeedAll(Start, Kinds(lines[..i])), Trim(lines[i]))
  {
    assert lines[..i + 1] == lines[..i] + [lines[i]];
    KindsSnoc(lines[..i], lines[i]);
    FeedLineIsFeed(FeedAll(Start, Kinds(lines[..i])), lines[i]);
  }

  /** The body of the loop over the lines, on the trimmed line. */
  method ReadLine(steps: seq<ParsedStep>, currentStep: Option<ParsedStep>, stepCounter: int, trimmed: string)
    returns (steps': seq<ParsedStep>, currentStep': Option<ParsedStep>, stepCounter': int)
    ensures ParseState(steps', currentStep', stepCounter') == FeedLine(ParseState(steps, currentStep, stepCounter), trimmed)
  {
    steps', currentStep', stepCounter' := steps, currentStep, stepCounter;
    if IsHeader(trimmed) {
      if currentStep'.Some? {
        steps' := steps' + [currentStep'.value];
      }
      currentStep' := Some(ParsedStep(stepCounter', StripTitle(trimmed), "", StepDuration));
      stepCounter' := stepCounter' + 1;
    } else if currentStep'.Some? && IsContent(trimmed) {
      var cur := currentStep'.value;
      var separator := if cur.description != [] then " " else "";
      currentStep' := Some(cur.(description := cur.description + separator + trimmed));
    }
  }

  method ParseAssemblyInstructions(geminiResponse: string) returns (r: ParsedInstructions)
    ensures r == Parse(geminiResponse)
  {
    var lines := Split(geminiResponse, '\n');
    var steps: seq<ParsedStep> := [];
    var currentStep: Option<ParsedStep> := None;
    var stepCounter := 1;
    for i := 0 to |lines|
      invariant ParseState(steps, currentStep, stepCounter) == FeedAll(Start, Kinds(lines[..i]))
    {
      FeedNextLine(lines, i);
      steps, currentStep, stepCounter := ReadLine(steps, currentStep, stepCounter, Trim(lines[i]));
    }
    assert lines[..|lines|] == lines;
    ghost var last := ParseState(steps, currentStep, stepCounter);
    assert Parse(geminiResponse) == Finish(last);
    if currentStep.Some? {
      steps := steps + [currentStep.value];
    }
    assert steps == AllSteps(last);
    r := ParsedInstructions(|steps|, SumParsed(steps), steps);
  }

  /** The titles of the header lines, in order. */
  function Titles(kinds: seq<LineKind>): seq<string>
  {
    if kinds == [] then []
    else Titles(kinds[..|kinds| - 1]) + if kinds[|kinds| - 1].HeaderLine? then [kinds[|kinds| - 1].title] else []
  }

  /** The trimmed lines that go into a description, in order. */
  function Contents(kinds: seq<LineKind>): (cs: seq<string>)
    ensures NonEmptyContent(kinds) ==> forall k :: 0 <= k < |cs| ==> cs[k] != []
  {
    if kinds == [] then []
    else Contents(kinds[..|kinds| - 1]) + if kinds[|kinds| - 1].ContentLine? then [kinds[|kinds| - 1].text] else []
  }

  /** What `KindOf` produces: a content line is never empty. */
  predicate NonEmptyContent(kinds: seq<LineKind>)
  {
    forall k :: 0 <= k < |kinds| ==> kinds[k].ContentLine? ==> kinds[k].text != []
  }

  predicate NoHeaders(kinds: seq<LineKind>)
  {
    forall k :: 0 <= k < |kinds| ==> !kinds[k].HeaderLine?
  }

  /**
   * One step per header so far: numbered from 1 in header order, carrying the header's
   * title, lasting 5000 ms, with the counter one past the last number.
   */
  predicate NumberedAsHeaders(st: ParseState, titles: seq<string>)
  {
    var all := AllSteps(st);
    && |all| == |titles|
    && st.counter == |all| + 1
    && (st.current.Some? <==> titles != [])
    && forall k :: 0 <= k < |all| ==> all[k].step == k + 1 && all[k].title == titles[k] && all[k].duration == StepDuration
  }

  /** A header line starts the next numbered step. */
  lemma FeedHeaderNumbering(st: ParseState, titles: seq<string>, title: string)
    requires NumberedAsHeaders(st, titles)
    ensures NumberedAsHeaders(Feed(st, HeaderLine(title)), titles + [title])
  {
    var st' := Feed(st, HeaderLine(title));
    assert AllSteps(st') == AllSteps(st) + [ParsedStep(st.counter, title, "", StepDuration)];
  }

  /** Any other line changes at most the description of the current step. */
  lemma FeedOtherNumbering(st: ParseState, titles: seq<string>, kind: LineKind)
    requires NumberedAsHeaders(st, titles) && !kind.HeaderLine?
    ensures NumberedAsHeaders(Feed(st, kind), titles)
  {
    var st' := Feed(st, kind);
    if kind.ContentLine? && st.current.Some? {
      var all := AllSteps(st);
      var all' := AllSteps(st');
      assert st'.done == st.done;
      assert |all'| == |all|;
      forall k | 0 <= k < |all|
        ensures all'[k].step == all[k].step && all'[k].title == all[k].title && all'[k].duration == all[k].duration
      {
        if k < |st.done| {
          assert all'[k] == all[k];
        }
      }
    }
  }

  lemma {:induction false} FeedAllNumbering(kinds: seq<LineKind>)
    ensures NumberedAsHeaders(FeedAll(Start, kinds), Titles(kinds))
  {
    if kinds != [] {
      var init := kinds[..|kinds| - 1];
      var last := kinds[|kinds| - 1];
      FeedAllNumbering(init);
      if last.HeaderLine? {
        FeedHeaderNumbering(FeedAll(Start, init), Titles(init), last.title);
      } else {
        FeedOtherNumbering(FeedAll(Start, init), Titles(init), last);
      }
    }
  }

  lemma {:induction false} SumParsedFixed(steps: seq<ParsedStep>)
    requires forall k :: 0 <= k < |steps| ==> steps[k].duration == StepDuration
    ensures SumParsed(steps) == StepDuration * |steps|
  {
    if steps != [] {
      SumParsedFixed(steps[..|steps| - 1]);
    }
  }

  /** One step per title, numbered 1..n in order, 5000 ms each; the totals are n and 5000 n. */
  predicate NumberedSteps(r: ParsedInstructions, titles: seq<string>)
  {
    && r.totalSteps == |r.steps| == |titles|
    && r.estimatedTime == StepDuration * r.totalSteps
    && forall k :: 0 <= k < |r.steps| ==>
         r.steps[k].step == k + 1 && r.steps[k].title == titles[k] && r.steps[k].duration == StepDuration
  }

  lemma FinishNumbering(kinds: seq<LineKind>)
    ensures NumberedSteps(Finish(FeedAll(Start, kinds)), Titles(kinds))
  {
    FeedAllNumbering(kinds);
    SumParsedFixed(AllSteps(FeedAll(Start, kinds)));
  }

  /**
   * The parse of a text has one step per header line, numbered in order and titled
   * from its header, each lasting 5000 ms.
   */
  lemma ParseNumbering(text: string)
    ensures NumberedSteps(Parse(text), Titles(Kinds(Split(text, '\n'))))
  {
    FinishNumbering(Kinds(Split(text, '\n')));
  }

  lemma {:induction false} FeedAllAppend(st: ParseState, a: seq<LineKind>, b: seq<LineKind>)
    ensures FeedAll(st, a + b) == FeedAll(FeedAll(st, a), b)
  {
    if b == [] {
      assert a + b == a;
    } else {
      var ab := a + b;
      assert ab[..|ab| - 1] == a + b[..|b| - 1];
      assert ab[|ab| - 1] == b[|b| - 1];
      FeedAllAppend(st, a, b[..|b| - 1]);
    }
  }

  lemma {:induction false} PreambleLeavesStart(preamble: seq<LineKind>)
    requires NoHeaders(preamble)
    ensures FeedAll(Start, preamble) == Start
  {
    if preamble != [] {
      PreambleLeavesStart(preamble[..|preamble| - 1]);
    }
  }

  lemma KindsSnoc(lines: seq<string>, line: string)
    ensures Kinds(lines + [line]) == Kinds(lines) + [KindOf(line)]
  {
    assert (lines + [line])[..|lines|] == lines;
  }

  lemma {:induction false} KindsAppend(a: seq<string>, b: seq<string>)
    ensures Kinds(a + b) == Kinds(a) + Kinds(b)
  {
    if b == [] {
      assert a + b == a;
    } else {
      var init := b[..|b| - 1];
      var last := b[|b| - 1];
      assert a + b == (a + init) + [last];
      assert b == init + [last];
      KindsAppend(a, init);
      KindsSnoc(a + init, last);
      KindsSnoc(init, last);
    }
  }

  /** Until the first header there is no current step, so the lines before it are dropped. */
  lemma PreambleDropped(preamble: seq<string>, rest: seq<string>)
    requires forall k :: 0 <= k < |preamble| ==> !IsHeader(Trim(preamble[k]))
    ensures FeedAll(Start, Kinds(preamble + rest)) == FeedAll(Start, Kinds(rest))
  {
    KindsAppend(preamble, rest);
    var ks := Kinds(preamble);
    assert NoHeaders(ks) by {
      forall k | 0 <= k < |ks|
        ensures !ks[k].HeaderLine?
      {
        KindsAt(preamble, k);
      }
    }
    PreambleLeavesStart(ks);
    FeedAllAppend(Start, ks, Kinds(rest));
  }

  /** The step a header starts, with the description built so far. */
  function Section(st: ParseState, title: string, description: string): ParseState
  {
    ParseState(AllSteps(st), Some(ParsedStep(st.counter, title, description, StepDuration)), st.counter + 1)
  }

  /** A content line adds its text to the description, after one space unless the description is empty. */
  lemma FeedContentJoins(st: ParseState, title: string, cs: seq<string>, text: string)
    requires text != [] && forall k :: 0 <= k < |cs| ==> cs[k] != []
    ensures Feed(Section(st, title, Join(cs, " ")), ContentLine(text)) == Section(st, title, Join(cs + [text], " "))
  {
    JoinEmpty(cs, " ");
    JoinSnoc(cs, text, " ");
    if cs == [] {
      assert [] + [] + text == text;
    }
  }

  /**
   * A header and the lines up to the next one build a single step whose description is
   * the content lines, trimmed and joined by single spaces; empty lines and lines that
   * start with `**` or `#` contribute nothing.
   */
  lemma {:induction false} SectionDescription(st: ParseState, title: string, body: seq<LineKind>)
    requires NoHeaders(body) && NonEmptyContent(body)
    ensures FeedAll(st, [HeaderLine(title)] + body) == Section(st, title, Join(Contents(body), " "))
    decreases |body|
  {
    var all := [HeaderLine(title)] + body;
    if body == [] {
      assert all[..0] == [];
    } else {
      var init := body[..|body| - 1];
      var last := body[|body| - 1];
      assert all[..|all| - 1] == [HeaderLine(title)] + init;
      assert all[|all| - 1] == last;
      assert NoHeaders(init) && NonEmptyContent(init);
      SectionDescription(st, title, init);
      var cs := Contents(init);
      if last.ContentLine? {
        assert Contents(body) == cs + [last.text];
        FeedContentJoins(st, title, cs, last.text);
      } else {
        assert Contents(body) == cs;
      }
    }
  }

  /** A bold line is skipped, whether or not a step is being built. */
  lemma BoldLineSkipped(line: string)
    requires StartsWith(Trim(line), "**")
    ensures KindOf(line) == SkippedLine
  {
    BoldIsNotHeader(Trim(line));
  }

  // ---------------------------------------------------------------------------
  // errorHandler

  /** The errors the handlers see: an `APIError` with its status, or any other error. */
  datatype Error =
    | ApiError(status: int, message: string)
    | OtherError(errorMessage: Option<string>)

  /** What `getErrorMessage` accepts: a plain string or an error object. */
  datatype ErrorValue = Text(text: string) | Thrown(error: Error)

  /** `errorHandler.handleError(error)` */
  function HandleError(error: Error): (m: string)
  {
    match error
    case ApiError(status, message) =>
      if status == 404 then "The requested information was not found. Let me try to help with general guidance."
      else if status == 400 then "Invalid request. Please rephrase your question and try again."
      else if status == 500 then "Server error. Trying alternative AI assistance..."
      else if status == 0 then "Backend unavailable. Using AI-powered assistance instead."
      else if message != [] then message
      else "An unexpected error occurred. Trying alternative assistance..."
    case OtherError(message) =>
      if message.Some? && Contains(message.value, "API_KEY") then
        "AI service configuration needed. Add your Gemini API key for enhanced features."
      else if message.Some? && (Contains(message.value, "quota") || Contains(message.value, "limit")) then
        "AI service temporarily unavailable due to usage limits. Please try again later."
      else "Service temporarily unavailable. Trying backup assistance..."
  }

  /** The four statuses with a fixed text; every other status shows the error's own message. */
  predicate FixedStatus(status: int)
  {
    status == 404 || status == 400 || status == 500 || status == 0
  }

  lemma HandleErrorApi(status: int, message: string)
    ensures !FixedStatus(status) && message != [] ==> HandleError(ApiError(status, message)) == message
    ensures !FixedStatus(status) && message == [] ==>
      HandleError(ApiError(status, message)) == "An unexpected error occurred. Trying alternative assistance..."
    ensures FixedStatus(status) ==> HandleError(ApiError(status, message)) == HandleError(ApiError(status, "x"))
  {
  }

  /** A key problem is reported before a quota problem, and the generic text comes last. */
  lemma HandleErrorOrder(message: string)
    ensures Contains(message, "API_KEY") ==>
      HandleError(OtherError(Some(message))) == "AI service configuration needed. Add your Gemini API key for enhanced features."
    ensures !Contains(message, "API_KEY") && (Contains(message, "quota") || Contains(message, "limit")) ==>
      HandleError(OtherError(Some(message))) == "AI service temporarily unavailable due to usage limits. Please try again later."
    ensures !Contains(message, "API_KEY") && !Contains(message, "quota") && !Contains(message, "limit") ==>
      HandleError(OtherError(Some(message))) == HandleError(OtherError(None))
  {
  }

  /** `errorHandler.getErrorMessage(error)` */
  function GetErrorMessage(error: ErrorValue): (m: string)
    ensures error.Text? ==> m == error.text
    ensures error.Thrown? ==> m == HandleError(error.error)
  {
    match error
    case Text(s) => s
    case Thrown(e) => HandleError(e)
  }

  /** `errorHandler.getFallbackMessage(error, hasGemini, hasBackend)`; the error is not read. */
  function GetFallbackMessage(hasGemini: bool, hasBackend: bool): (m: string)
    ensures hasGemini ==> m == "Using AI assistance for your request..."
    ensures !hasGemini && hasBackend ==> m == "Using backend services for basic assistance..."
    ensures !hasGemini && !hasBackend ==> m == "Using local guidance. Add Gemini API key for enhanced AI assistance!"
  {
    if hasGemini then "Using AI assistance for your request..."
    else if hasBackend then "Using backend services for basic assistance..."
    else "Using local guidance. Add Gemini API key for enhanced AI assistance!"
  }

  // ---------------------------------------------------------------------------
  // assemblyAPI.getPredefinedInstructions

  datatype GuideStep = GuideStep(step: int, title: string, description: string, duration: string)

  datatype AssemblyGuide = AssemblyGuide(name: string, steps: seq<GuideStep>, tools: seq<string>, tips: seq<string>)

  function TvStandGuide(): AssemblyGuide
  {
    AssemblyGuide("TV Stand Assembly",
      [ GuideStep(1, "Unpack Components", "Remove all parts and organize hardware", "5 minutes"),
        GuideStep(2, "Attach Base", "Secure stand base with provided screws", "10 minutes"),
        GuideStep(3, "Mount TV", "Carefully attach TV to stand", "8 minutes"),
        GuideStep(4, "Connect Cables", "Route and connect all cables", "5 minutes") ],
      ["Phillips screwdriver", "Level"],
      ["Have someone help with TV mounting", "Don't fully tighten until all parts are attached"])
  }

  /** The guides by lower-cased item type, as intended: only the own key `tv`. */
  function GetPredefinedInstructions(itemType: string): (r: Option<AssemblyGuide>)
    ensures r.Some? <==> ToLower(itemType) == "tv"
    ensures r.Some? ==> r.value == TvStandGuide()
  {
    if ToLower(itemType) == "tv" then Some(TvStandGuide()) else None
  }

  /** What `predefined[key] || null` finds in the object literal. */
  datatype Found = Guide(guide: AssemblyGuide) | Inherited(name: string)

  /**
   * As written: the lookup also finds the members every object inherits, so an item
   * type whose lower-cased form is `constructor` or `__proto__` yields a value that is
   * not null and not a guide.
   */
  function GetPredefinedInstructionsAsWritten(itemType: string): Option<Found>
  {
    var key := ToLower(itemType);
    if key == "tv" then Some(Guide(TvStandGuide()))
    else if key in InheritedMembers then Some(Inherited(key))
    else None
  }

  /**
   * Every item type that lower-cases to an inherited member name is found by the code as
   * written and by no guide of the intended lookup.
   */
  lemma PredefinedInheritedKey(itemType: string)
    requires ToLower(itemType) in InheritedMembers
    ensures GetPredefinedInstructionsAsWritten(itemType) == Some(Inherited(ToLower(itemType)))
    ensures GetPredefinedInstructions(itemType) == None
  {
    assert |ToLower(itemType)| > 2;
  }

  /** `constructor` is such an item type. */
  lemma PredefinedConstructorKey()
    ensures ToLower("constructor") in InheritedMembers
  {
    ToLowerOfLower("constructor");
  }

  /** The guide has four steps numbered 1..4 in order. */
  lemma TvStandGuideSteps()
    ensures |TvStandGuide().steps| == 4
    ensures forall k :: 0 <= k < 4 ==> TvStandGuide().steps[k].step == k + 1
  {
  }
}
