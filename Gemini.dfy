/**
 * The Gemini assistant service of the web client: the keyword tests that decide
 * what a chat message asks for, the extraction of an item name or a device from
 * it, the canned replies used when the model is unavailable or fails, the retry
 * policy around one model request, and the conversation history the service keeps.
 *
 * The model itself is not modelled: a request is answered by a given sequence of
 * attempt outcomes, one per attempt the retry loop may make.
 */
module Gemini {
  import opened JsText

  // ---------------------------------------------------------------------------
  // isAssemblyRequest / isTroubleshootingRequest

  /** `keywords.some(k => s.includes(k))` */
  function AnyKeyword(s: string, keywords: seq<string>): (b: bool)
    ensures b <==> exists k :: 0 <= k < |keywords| && Contains(s, keywords[k])
  {
    if keywords == [] then false
    else
      var b := Contains(s, keywords[0]) || AnyKeyword(s, keywords[1..]);
      assert forall k :: 1 <= k < |keywords| ==> keywords[k] == keywords[1..][k - 1];
      b
  }

  const AssemblyKeywords: seq<string> :=
    ["build", "assemble", "assembly", "put together", "construct", "install", "setup", "how to make", "build a", "assemble a"]

  const TroubleKeywords: seq<string> :=
    ["fix", "repair", "broken", "not working", "problem", "issue", "troubleshoot", "help with", "wrong with"]

  /** The test is applied to the lower-cased message. */
  predicate IsAssemblyRequest(message: string)
  {
    AnyKeyword(message, AssemblyKeywords)
  }

  predicate IsTroubleshootingRequest(message: string)
  {
    AnyKeyword(message, TroubleKeywords)
  }

  /** "build a" and "assemble a" never decide the test: "build" and "assemble" come first in them. */
  lemma AssemblyKeywordsRedundant(message: string)
    ensures IsAssemblyRequest(message) <==> AnyKeyword(message, AssemblyKeywords[..8])
  {
    var short := AssemblyKeywords[..8];
    if Contains(message, AssemblyKeywords[8]) {
      assert StartsWith(AssemblyKeywords[8], short[0]);
      ContainsTrans(message, AssemblyKeywords[8], short[0]);
    }
    if Contains(message, AssemblyKeywords[9]) {
      assert StartsWith(AssemblyKeywords[9], short[1]);
      ContainsTrans(message, AssemblyKeywords[9], short[1]);
    }
    assert forall k :: 0 <= k < 8 ==> short[k] == AssemblyKeywords[k];
  }

  // ---------------------------------------------------------------------------
  // extractItemName

  /**
   * The alternatives of the global pattern that removes filler words, in the order the
   * regular expression tries them.
   */
  const Fillers: seq<string> :=
    ["how to ", "build ", "assemble ", "put together ", "construct ", "install ", "setup ", "a ", "an ", "the ", "my "]

  predicate NoEmpty(alts: seq<string>)
  {
    forall k :: 0 <= k < |alts| ==> alts[k] != []
  }

  /** The first alternative that matches at the start of `s`. */
  function FirstPrefix(s: string, alts: seq<string>): (r: Option<nat>)
    ensures r.Some? ==> r.value < |alts| && StartsWith(s, alts[r.value])
    ensures r.Some? ==> forall j :: 0 <= j < r.value ==> !StartsWith(s, alts[j])
    ensures r.None? ==> forall j :: 0 <= j < |alts| ==> !StartsWith(s, alts[j])
  {
    if alts == [] then None
    else if StartsWith(s, alts[0]) then Some(0)
    else
      var r := FirstPrefix(s, alts[1..]);
      assert forall j :: 1 <= j < |alts| ==> alts[j] == alts[1..][j - 1];
      if r.Some? then Some(r.value + 1) else None
  }

  /**
   * `s.replace(/alt0|alt1|.../g, '')`: scanning left to right, the first alternative that
   * matches at the current position is deleted and the scan goes on after it; where none
   * matches, the character is kept. Text produced by a deletion is not scanned again.
   */
  function StripAlternatives(s: string, alts: seq<string>): (r: string)
    requires NoEmpty(alts)
    ensures |r| <= |s|
    ensures forall i :: 0 <= i < |r| ==> r[i] in s
    decreases |s|
  {
    if s == [] then []
    else match FirstPrefix(s, alts)
      case Some(k) =>
        var r := StripAlternatives(s[|alts[k]|..], alts);
        assert forall i :: 0 <= i < |r| ==> r[i] in s[|alts[k]|..];
        r
      case None =>
        var r := [s[0]] + StripAlternatives(s[1..], alts);
        assert forall i :: 1 <= i < |r| ==> r[i] in s[1..];
        r
  }

  predicate IsMark(c: char)
  {
    c == '?' || c == '!' || c == '.'
  }

  /** `s.replace(/\?|!|\./g, '')` */
  function DropMarks(s: string): (r: string)
    ensures forall i :: 0 <= i < |r| ==> !IsMark(r[i]) && r[i] in s
    decreases |s|
  {
    if s == [] then []
    else
      var rest := DropMarks(s[1..]);
      assert forall i :: 0 <= i < |rest| ==> rest[i] in s;
      if IsMark(s[0]) then rest else [s[0]] + rest
  }

  /** Removing the marks keeps every other character, in order. */
  lemma {:induction false} DropMarksAppend(a: string, b: string)
    ensures DropMarks(a + b) == DropMarks(a) + DropMarks(b)
    decreases |a|
  {
    if a == [] {
      assert a + b == b;
    } else {
      assert (a + b)[0] == a[0];
      assert (a + b)[1..] == a[1..] + b;
      DropMarksAppend(a[1..], b);
    }
  }

  lemma {:induction false} DropMarksKeeps(s: string)
    requires forall i :: 0 <= i < |s| ==> !IsMark(s[i])
    ensures DropMarks(s) == s
  {
    if s != [] {
      DropMarksKeeps(s[1..]);
    }
  }

  lemma FillersNotEmpty()
    ensures NoEmpty(Fillers)
  {
  }

  /** `extractItemName(message)`: `None` stands for `null`. */
  function ExtractItemName(message: string): Option<string>
  {
    FillersNotEmpty();
    var cleaned := Trim(DropMarks(StripAlternatives(ToLower(message), Fillers)));
    if cleaned == [] then None else Some(cleaned)
  }

  /**
   * An extracted item name is never empty, is lower case, has no `?`, `!` or `.`, and
   * neither starts nor ends with white space; `null` comes only from a message that
   * cleans down to nothing.
   */
  lemma ExtractItemNameShape(message: string)
    ensures var r := ExtractItemName(message);
      r.Some? ==>
        && r.value != []
        && IsLower(r.value)
        && (forall i :: 0 <= i < |r.value| ==> !IsMark(r.value[i]))
        && !IsJsSpace(r.value[0]) && !IsJsSpace(r.value[|r.value| - 1])
  {
    FillersNotEmpty();
    var lower := ToLower(message);
    ToLowerIsLower(message);
    var stripped := StripAlternatives(lower, Fillers);
    var marked := DropMarks(stripped);
    var a := TrimShape(marked);
    var cleaned := Trim(marked);
    forall i | 0 <= i < |cleaned|
      ensures LowerChar(cleaned[i]) == cleaned[i] && !IsMark(cleaned[i])
    {
      assert cleaned[i] == marked[a + i];
      assert marked[a + i] in stripped;
      var j :| 0 <= j < |stripped| && stripped[j] == marked[a + i];
      assert stripped[j] in lower;
    }
  }

  /** Two alternatives never start with the same two characters, so none is a prefix of another. */
  lemma FillerHeads()
    ensures forall k :: 0 <= k < |Fillers| ==> |Fillers[k]| >= 2
    ensures forall j, k :: 0 <= j < |Fillers| && 0 <= k < |Fillers| && j != k ==>
      Fillers[j][0] != Fillers[k][0] || Fillers[j][1] != Fillers[k][1]
  {
  }

  /** A filler word at the front is deleted whatever follows it. */
  lemma LeadingFillerDropped(k: nat, rest: string)
    requires k < |Fillers|
    ensures StripAlternatives(Fillers[k] + rest, Fillers) == StripAlternatives(rest, Fillers)
  {
    FillersNotEmpty();
    FillerHeads();
    var s := Fillers[k] + rest;
    var r := FirstPrefix(s, Fillers);
    assert StartsWith(s, Fillers[k]) by {
      assert s[..|Fillers[k]|] == Fillers[k];
    }
    assert r.Some? && r.value <= k;
    var j := r.value;
    assert s[0] == Fillers[k][0] && s[1] == Fillers[k][1];
    assert Fillers[j][0] == s[0] && Fillers[j][1] == s[1];
    assert j == k;
    assert s[|Fillers[k]|..] == rest;
  }

  // ---------------------------------------------------------------------------
  // extractDeviceAndProblem

  const Devices: seq<string> := [
    "tv", "television", "samsung tv", "lg tv", "sony tv",
    "router", "wifi router", "modem",
    "microwave", "oven",
    "phone", "smartphone", "iphone", "android",
    "computer", "pc", "laptop",
    "printer", "washing machine", "dishwasher",
    "air conditioner", "ac", "heater"
  ]

  const GeneralIssue: string := "general issue"

  /** The first name, in list order, that occurs in `s`. */
  function FirstContained(s: string, names: seq<string>): (r: Option<nat>)
    ensures r.Some? ==> r.value < |names| && Contains(s, names[r.value])
    ensures r.Some? ==> forall j :: 0 <= j < r.value ==> !Contains(s, names[j])
    ensures r.None? ==> forall j :: 0 <= j < |names| ==> !Contains(s, names[j])
  {
    if names == [] then None
    else if Contains(s, names[0]) then Some(0)
    else
      var r := FirstContained(s, names[1..]);
      assert forall j :: 1 <= j < |names| ==> names[j] == names[1..][j - 1];
      if r.Some? then Some(r.value + 1) else None
  }

  datatype DeviceInfo = DeviceInfo(device: Option<string>, problem: string)

  /** What `extractDeviceAndProblem(message)` returns; `None` stands for `null`. */
  function DeviceAndProblem(message: string): DeviceInfo
  {
    match FirstContained(ToLower(message), Devices)
    case Some(k) => DeviceInfo(Some(Devices[k]), message)
    case None => DeviceInfo(None, GeneralIssue)
  }

  /** `for (const device of names) if (s.includes(device)) { ...; break; }` */
  method FindContained(s: string, names: seq<string>) returns (found: Option<nat>)
    ensures found == FirstContained(s, names)
  {
    var i := 0;
    while i < |names|
      invariant 0 <= i <= |names|
      invariant forall j :: 0 <= j < i ==> !Contains(s, names[j])
    {
      if Contains(s, names[i]) {
        found := Some(i);
        ghost var first := FirstContained(s, names);
        assert first == Some(i);
        return;
      }
      i := i + 1;
    }
    found := None;
  }

  method ExtractDeviceAndProblem(message: string) returns (r: DeviceInfo)
    ensures r == DeviceAndProblem(message)
  {
    var lowerMessage := ToLower(message);
    var found := FindContained(lowerMessage, Devices);
    if found.Some? {
      r := DeviceInfo(Some(Devices[found.value]), message);
    } else {
      r := DeviceInfo(None, GeneralIssue);
    }
  }

  /** A name that contains an earlier name of the list is never the one found. */
  lemma ShadowedNeverFound(s: string, names: seq<string>, j: nat, k: nat)
    requires j < k < |names| && Contains(names[k], names[j])
    ensures FirstContained(s, names) != Some(k)
  {
    if FirstContained(s, names) == Some(k) {
      ContainsTrans(s, names[k], names[j]);
    }
  }

  lemma OccursIn(s: string, t: string, i: nat)
    requires i + |t| <= |s| && s[i..i + |t|] == t
    ensures Contains(s, t)
  {
    ContainsAt(s, t, i);
  }

  lemma TvShadows()
    ensures Devices[0] == "tv" && Devices[2] == "samsung tv" && Devices[3] == "lg tv" && Devices[4] == "sony tv"
    ensures Contains(Devices[2], Devices[0]) && Contains(Devices[3], Devices[0]) && Contains(Devices[4], Devices[0])
  {
    OccursIn(Devices[2], Devices[0], 8);
    OccursIn(Devices[3], Devices[0], 3);
    OccursIn(Devices[4], Devices[0], 5);
  }

  lemma RouterAndPhoneShadow()
    ensures Devices[5] == "router" && Devices[6] == "wifi router"
    ensures Devices[10] == "phone" && Devices[11] == "smartphone" && Devices[12] == "iphone"
    ensures Contains(Devices[6], Devices[5]) && Contains(Devices[11], Devices[10]) && Contains(Devices[12], Devices[10])
  {
    OccursIn(Devices[6], Devices[5], 5);
    assert Devices[11][5..10] == "phone";
    OccursIn(Devices[11], Devices[10], 5);
    OccursIn(Devices[12], Devices[10], 1);
  }

  /**
   * Six entries of the device list can never be reported, because an earlier entry
   * occurs inside them: "tv" in "samsung tv", "lg tv" and "sony tv", "router" in
   * "wifi router", and "phone" in "smartphone" and "iphone".
   */
  lemma ShadowedDevices(message: string)
    ensures var f := FirstContained(ToLower(message), Devices);
      f != Some(2) && f != Some(3) && f != Some(4) && f != Some(6) && f != Some(11) && f != Some(12)
  {
    var s := ToLower(message);
    TvShadows();
    RouterAndPhoneShadow();
    ShadowedNeverFound(s, Devices, 0, 2);
    ShadowedNeverFound(s, Devices, 0, 3);
    ShadowedNeverFound(s, Devices, 0, 4);
    ShadowedNeverFound(s, Devices, 5, 6);
    ShadowedNeverFound(s, Devices, 10, 11);
    ShadowedNeverFound(s, Devices, 10, 12);
  }

  /** The problem is the message itself exactly when a device was found. */
  lemma DeviceAndProblemOutcome(message: string)
    ensures var r := DeviceAndProblem(message);
      && (r.device.Some? <==> exists k :: 0 <= k < |Devices| && Contains(ToLower(message), Devices[k]))
      && (r.device.Some? ==> r.problem == message)
      && (r.device.None? ==> r.problem == GeneralIssue)
  {
    FirstContainedFound(ToLower(message), Devices);
  }

  lemma FirstContainedFound(s: string, names: seq<string>)
    ensures FirstContained(s, names).Some? <==> exists k :: 0 <= k < |names| && Contains(s, names[k])
  {
    var f := FirstContained(s, names);
    if f.Some? {
      assert Contains(s, names[f.value]);
    }
  }

  // ---------------------------------------------------------------------------
  // getFallbackResponse

  /** A reply of the service; `ReplyType` gives its `type` field. */
  datatype Reply =
    | ChatReply(text: string)
    | AssemblyReply(text: string, itemName: string)
    | TroubleshootingReply(text: string, deviceName: string, problem: string)

  function ReplyType(r: Reply): string
  {
    match r
    case ChatReply(_) => "chat"
    case AssemblyReply(_, _) => "assembly_instructions"
    case TroubleshootingReply(_, _, _) => "troubleshooting"
  }

  const WelcomeText: string :=
    "You're very welcome! \U{1F60A}\n\nI'm here whenever you need help with assembly instructions, troubleshooting, or any other questions.\n\n**What I can help with:**\n\U{2022} **Assembly instructions** for ANY item\n\U{2022} **Device troubleshooting** for electronics\n\U{2022} **Repair guidance** and maintenance tips\n\U{2022} **Tool recommendations** and safety advice\n\nFeel free to ask about anything - I can help with ANY item or device!"

  const GreetingText: string :=
    "Hello! \U{1F44B} I'm HoloHelp Assistant!\n\n**I can help you with:**\n\U{2022} Assembly instructions for any item\n\U{2022} Troubleshooting devices and electronics\n\U{2022} Repair and maintenance guidance\n\U{2022} Tool and safety recommendations\n\n**Try asking:**\n\U{2022} \"How to build a Samsung TV stand?\"\n\U{2022} \"Fix my WiFi router\"\n\U{2022} \"Assemble IKEA desk\"\n\nWhat would you like help with today?"

  const OfferText: string :=
    "I'd love to help! \U{1F527}\n\n**What I can do:**\n\U{2022} Provide step-by-step assembly instructions for furniture, electronics, appliances, and more\n\U{2022} Help troubleshoot device issues with detailed solutions\n\U{2022} Offer repair guidance and maintenance tips\n\U{2022} Recommend tools and provide safety advice\n\n**Just ask me something like:**\n\U{2022} \"How to build a Samsung TV stand?\"\n\U{2022} \"Fix my WiFi router\"\n\U{2022} \"Troubleshoot my microwave\"\n\nWhat would you like help with?"

  /** `getFallbackResponse(message)`: always of type 'chat'. */
  function GetFallbackResponse(message: string): (r: Reply)
    ensures r.ChatReply? && ReplyType(r) == "chat"
    ensures r.text == WelcomeText || r.text == GreetingText || r.text == OfferText
  {
    var lowerMessage := ToLower(message);
    if Contains(lowerMessage, "thank") then ChatReply(WelcomeText)
    else if Contains(lowerMessage, "hello") || Contains(lowerMessage, "hi") then ChatReply(GreetingText)
    else ChatReply(OfferText)
  }

  /**
   * Thanks win over greetings, and the test is on substrings of the lower-cased
   * message, so a word such as "this" or "which" counts as "hi".
   */
  lemma FallbackPrecedence(message: string)
    ensures Contains(ToLower(message), "thank") ==> GetFallbackResponse(message).text == WelcomeText
    ensures Contains(ToLower(message), "hi") && !Contains(ToLower(message), "thank") ==>
      GetFallbackResponse(message).text == GreetingText
  {
  }

  lemma FallbackIgnoresCase(a: string, b: string)
    requires ToLower(a) == ToLower(b)
    ensures GetFallbackResponse(a) == GetFallbackResponse(b)
  {
  }

  // ---------------------------------------------------------------------------
  // makeRequestWithRetry

  /** What one call of the model does: answer with a text, or throw an error with a message. */
  datatype Outcome = Success(text: string) | Failure(message: string)

  /** Answered, rethrown, or `undefined` when the loop makes no attempt at all. */
  datatype RetryResult = Answered(text: string) | Rethrown(message: string) | NoAttempt

  /** The result and the waits (in ms) the loop sleeps between attempts. */
  datatype RetryRun = RetryRun(result: RetryResult, waits: seq<int>)

  const MaxRetries: int := 3

  predicate Retryable(message: string)
  {
    Contains(message, "503") || Contains(message, "overloaded")
  }

  /** The loop from attempt number `attempt` on, attempt n seeing `outcomes[n - 1]`. */
  function Retry(outcomes: seq<Outcome>, maxRetries: int, attempt: nat): RetryRun
    requires 1 <= attempt && maxRetries <= |outcomes|
    decreases maxRetries - attempt + 1
  {
    if attempt > maxRetries then RetryRun(NoAttempt, [])
    else match outcomes[attempt - 1]
      case Success(t) => RetryRun(Answered(t), [])
      case Failure(m) =>
        if attempt < maxRetries && Retryable(m) then
          var rest := Retry(outcomes, maxRetries, attempt + 1);
          RetryRun(rest.result, [attempt * 1000] + rest.waits)
        else RetryRun(Rethrown(m), [])
  }

  method MakeRequestWithRetry(outcomes: seq<Outcome>, maxRetries: int) returns (result: RetryResult, waits: seq<int>)
    requires maxRetries <= |outcomes|
    ensures RetryRun(result, waits) == Retry(outcomes, maxRetries, 1)
  {
    waits := [];
    var attempt := 1;
    while attempt <= maxRetries
      invariant 1 <= attempt && (maxRetries >= 1 ==> attempt <= maxRetries)
      invariant Retry(outcomes, maxRetries, 1) ==
        RetryRun(Retry(outcomes, maxRetries, attempt).result, waits + Retry(outcomes, maxRetries, attempt).waits)
      decreases maxRetries - attempt
    {
      match outcomes[attempt - 1]
      case Success(t) =>
        result := Answered(t);
        return;
      case Failure(m) =>
        if attempt < maxRetries && Retryable(m) {
          var rest := Retry(outcomes, maxRetries, attempt + 1);
          assert waits + Retry(outcomes, maxRetries, attempt).waits == (waits + [attempt * 1000]) + rest.waits;
          waits := waits + [attempt * 1000];
        } else {
          result := Rethrown(m);
          return;
        }
      attempt := attempt + 1;
    }
    result := NoAttempt;
  }

  /**
   * What a run from attempt `attempt` does: the attempts it makes are the ones that
   * slept before them plus the last, never beyond `maxRetries`; the n-th sleep lasts
   * `(attempt + n) * 1000` ms; every attempt before the last failed with a message
   * mentioning 503 or "overloaded"; the last one answered, or failed with an error that
   * is not retryable or came on the final allowed attempt.
   */
  lemma {:induction false} RetryTrace(outcomes: seq<Outcome>, maxRetries: int, attempt: nat)
    requires 1 <= attempt && maxRetries <= |outcomes|
    ensures var run := Retry(outcomes, maxRetries, attempt);
      var last := attempt - 1 + |run.waits|;
      && (run.result.NoAttempt? <==> attempt > maxRetries)
      && (!run.result.NoAttempt? ==> last < maxRetries)
      && (forall n :: 0 <= n < |run.waits| ==> run.waits[n] == (attempt + n) * 1000)
      && (forall n :: attempt - 1 <= n < last ==> outcomes[n].Failure? && Retryable(outcomes[n].message))
      && (run.result.Answered? ==> outcomes[last] == Success(run.result.text))
      && (run.result.Rethrown? ==>
            outcomes[last] == Failure(run.result.message)
            && (last == maxRetries - 1 || !Retryable(run.result.message)))
    decreases maxRetries - attempt + 1
  {
    if attempt <= maxRetries && outcomes[attempt - 1].Failure?
      && attempt < maxRetries && Retryable(outcomes[attempt - 1].message)
    {
      RetryTrace(outcomes, maxRetries, attempt + 1);
    }
  }

  /** With the default of three retries a request always ends answered or rethrown, after at most three attempts. */
  lemma DefaultRetries(outcomes: seq<Outcome>)
    requires MaxRetries <= |outcomes|
    ensures var run := Retry(outcomes, MaxRetries, 1);
      !run.result.NoAttempt? && run.waits in [[], [1000], [1000, 2000]]
  {
    RetryTrace(outcomes, MaxRetries, 1);
    var run := Retry(outcomes, MaxRetries, 1);
    assert |run.waits| <= 2;
    if |run.waits| == 1 {
      assert run.waits == [1000];
    } else if |run.waits| == 2 {
      assert run.waits == [1000, 2000];
    }
  }

  /** One model request with the default retries: its text, or the error it throws. */
  datatype Thrown<T> = Returned(value: T) | Threw(message: string)

  function Request(outcomes: seq<Outcome>): Thrown<string>
    requires MaxRetries <= |outcomes|
  {
    DefaultRetries(outcomes);
    match Retry(outcomes, MaxRetries, 1).result
    case Answered(t) => Returned(t)
    case Rethrown(m) => Threw(m)
  }

  // ---------------------------------------------------------------------------
  // chat: context string, prompt window and conversation history

  datatype Role = User | Assistant

  datatype HistoryEntry = HistoryEntry(role: Role, content: string)

  /**
   * A property value of the `context` object: a string, or any other value, given by
   * what `${value}` prints for it and by its truthiness.
   */
  datatype ContextValue = Text(text: string) | Other(printed: string, truthy: bool)

  /** One property of the `context` object, in `Object.entries` order. */
  datatype ContextEntry = ContextEntry(key: string, value: ContextValue)

  predicate IsTruthy(v: ContextValue)
  {
    match v
    case Text(t) => t != []
    case Other(_, truthy) => truthy
  }

  /** `${value}` */
  function Printed(v: ContextValue): string
  {
    match v
    case Text(t) => t
    case Other(p, _) => p
  }

  /** `${key}: ${value}` */
  function ContextLine(e: ContextEntry): string
  {
    e.key + ": " + Printed(e.value)
  }

  /** `.filter(([key, value]) => value).map(...)` */
  function ContextLines(context: seq<ContextEntry>): seq<string>
  {
    if context == [] then []
    else
      var last := context[|context| - 1];
      ContextLines(context[..|context| - 1]) + if IsTruthy(last.value) then [ContextLine(last)] else []
  }

  function ContextString(context: seq<ContextEntry>): string
  {
    Join(ContextLines(context), "\n")
  }

  /** The positions of the entries with a truthy value, in increasing order. */
  function TruthyIndices(context: seq<ContextEntry>): (ix: seq<nat>)
    ensures forall l :: 0 <= l < |ix| ==> ix[l] < |context| && IsTruthy(context[ix[l]].value)
    ensures forall l, m :: 0 <= l < m < |ix| ==> ix[l] < ix[m]
    ensures forall i :: 0 <= i < |context| && IsTruthy(context[i].value) ==> i in ix
  {
    if context == [] then []
    else
      var n := |context| - 1;
      var init := context[..n];
      assert forall i :: 0 <= i < n ==> init[i] == context[i];
      var ix := TruthyIndices(init);
      if IsTruthy(context[n].value) then ix + [n] else ix
  }

  /**
   * The context string has one line per truthy entry, in the entries' order: line `l`
   * is the line of the `l`-th truthy entry, whatever kind of value it holds.
   */
  lemma {:induction false} ContextLinesTruthy(context: seq<ContextEntry>)
    ensures var lines := ContextLines(context);
      var ix := TruthyIndices(context);
      && |lines| == |ix|
      && forall l :: 0 <= l < |lines| ==> lines[l] == ContextLine(context[ix[l]])
  {
    if context != [] {
      var n := |context| - 1;
      var init := context[..n];
      ContextLinesTruthy(init);
      var lines := ContextLines(context);
      var initLines := ContextLines(init);
      var ix := TruthyIndices(context);
      var initIx := TruthyIndices(init);
      if IsTruthy(context[n].value) {
        assert lines == initLines + [ContextLine(context[n])];
        assert ix == initIx + [n];
      } else {
        assert lines == initLines;
        assert ix == initIx;
      }
      forall l | 0 <= l < |lines|
        ensures lines[l] == ContextLine(context[ix[l]])
      {
        if l < |initLines| {
          assert lines[l] == initLines[l] && ix[l] == initIx[l];
          assert init[initIx[l]] == context[initIx[l]];
        }
      }
    }
  }

  /** An entry with a falsy value leaves the context string as it was. */
  lemma ContextIgnoresFalsy(context: seq<ContextEntry>, e: ContextEntry)
    requires !IsTruthy(e.value)
    ensures ContextString(context + [e]) == ContextString(context)
  {
    var c := context + [e];
    assert c[..|c| - 1] == context && c[|c| - 1] == e;
    assert ContextLines(c) == ContextLines(context) + [] == ContextLines(context);
  }

  /** `history.slice(-6)` */
  function PromptWindow(history: seq<HistoryEntry>): (w: seq<HistoryEntry>)
  {
    if |history| <= 6 then history else history[|history| - 6..]
  }

  /** The prompt shows at most the six latest entries, and all of them when there are fewer. */
  lemma PromptWindowIsLatest(history: seq<HistoryEntry>)
    ensures var w := PromptWindow(history);
      && |w| == (if |history| < 6 then |history| else 6)
      && w == history[|history| - |w|..]
  {
  }

  /** What the chat prompt is built from; the surrounding instructions are fixed text. */
  datatype ChatPrompt = ChatPrompt(contextString: string, window: seq<HistoryEntry>, message: string)

  const HistoryLimit: int := 10

  /** Push the exchange, then keep the last ten entries. */
  function AppendExchange(history: seq<HistoryEntry>, message: string, response: string): seq<HistoryEntry>
  {
    var h := history + [HistoryEntry(User, message), HistoryEntry(Assistant, response)];
    if |h| > HistoryLimit then h[|h| - HistoryLimit..] else h
  }

  /** At most ten entries, alternating user and assistant, starting with the user's. */
  predicate HistoryWellFormed(history: seq<HistoryEntry>)
  {
    && |history| <= HistoryLimit
    && |history| % 2 == 0
    && forall i :: 0 <= i < |history| ==> history[i].role == (if i % 2 == 0 then User else Assistant)
  }

  /**
   * Appending an exchange keeps the history well formed, ends it with the user's message
   * and the reply, and keeps the entries before them as the latest of the old history.
   */
  lemma AppendExchangeKeepsShape(history: seq<HistoryEntry>, message: string, response: string)
    requires HistoryWellFormed(history)
    ensures var h := AppendExchange(history, message, response);
      && HistoryWellFormed(h)
      && |h| >= 2
      && h[|h| - 2] == HistoryEntry(User, message)
      && h[|h| - 1] == HistoryEntry(Assistant, response)
      && h[..|h| - 2] == history[|history| - (|h| - 2)..]
  {
    var full := history + [HistoryEntry(User, message), HistoryEntry(Assistant, response)];
    var h := AppendExchange(history, message, response);
    if |full| > HistoryLimit {
      assert |full| == 12;
      assert h == full[2..];
      forall i | 0 <= i < |h|
        ensures h[i].role == (if i % 2 == 0 then User else Assistant)
      {
        assert h[i] == full[i + 2];
      }
      assert h[..|h| - 2] == history[2..];
    } else {
      assert h[..|h| - 2] == history;
    }
  }

  /** What `chat` does: its result (or error), the history afterwards, and the prompt it sent. */
  datatype ChatRun = ChatRun(result: Thrown<Reply>, history: seq<HistoryEntry>, prompt: Option<ChatPrompt>)

  const NoModelMessage: string := "Gemini API not available. Please add VITE_GEMINI_API_KEY to your environment."

  function ChatStep(history: seq<HistoryEntry>, hasModel: bool, message: string, context: seq<ContextEntry>,
                    outcomes: seq<Outcome>): ChatRun
    requires MaxRetries <= |outcomes|
  {
    if !hasModel then ChatRun(Threw(NoModelMessage), history, None)
    else
      var prompt := ChatPrompt(ContextString(context), PromptWindow(history), message);
      match Request(outcomes)
      case Returned(t) => ChatRun(Returned(ChatReply(t)), AppendExchange(history, message, t), Some(prompt))
      case Threw(m) => ChatRun(Threw(m), history, Some(prompt))
  }

  // ---------------------------------------------------------------------------
  // processMessage

  datatype Processed = Processed(reply: Reply, history: seq<HistoryEntry>)

  /** `processMessage(message, context)`, with the attempt outcomes of the one request it makes. */
  function Process(history: seq<HistoryEntry>, hasModel: bool, message: string, context: seq<ContextEntry>,
                   outcomes: seq<Outcome>): Processed
    requires MaxRetries <= |outcomes|
  {
    if !hasModel then Processed(GetFallbackResponse(message), history)
    else
      var lowerMessage := ToLower(message);
      var itemName := ExtractItemName(message);
      var info := DeviceAndProblem(message);
      if IsAssemblyRequest(lowerMessage) && itemName.Some? then
        match Request(outcomes)
        case Returned(t) => Processed(AssemblyReply(t, itemName.value), history)
        case Threw(_) => Processed(GetFallbackResponse(message), history)
      else if IsTroubleshootingRequest(lowerMessage) && info.device.Some? then
        match Request(outcomes)
        case Returned(t) => Processed(TroubleshootingReply(t, info.device.value, info.problem), history)
        case Threw(_) => Processed(GetFallbackResponse(message), history)
      else
        var run := ChatStep(history, hasModel, message, context, outcomes);
        match run.result
        case Returned(r) => Processed(r, run.history)
        case Threw(_) => Processed(GetFallbackResponse(message), history)
  }

  /**
   * The routing: without a model, or whenever the request fails, the fallback reply and
   * an unchanged history; otherwise assembly instructions when the message asks for an
   * assembly and names an item, else troubleshooting steps when it reports trouble and
   * names a device, else a chat reply, which alone records the exchange.
   */
  lemma ProcessRouting(history: seq<HistoryEntry>, hasModel: bool, message: string, context: seq<ContextEntry>,
                       outcomes: seq<Outcome>)
    requires MaxRetries <= |outcomes|
    ensures var p := Process(history, hasModel, message, context, outcomes);
      var lower := ToLower(message);
      var assembly := IsAssemblyRequest(lower) && ExtractItemName(message).Some?;
      var trouble := IsTroubleshootingRequest(lower) && DeviceAndProblem(message).device.Some?;
      && (!hasModel || Request(outcomes).Threw? ==> p == Processed(GetFallbackResponse(message), history))
      && (hasModel && Request(outcomes).Returned? ==>
            && (assembly ==>
                  p.reply == AssemblyReply(Request(outcomes).value, ExtractItemName(message).value)
                  && p.history == history)
            && (!assembly && trouble ==>
                  p.reply == TroubleshootingReply(Request(outcomes).value, DeviceAndProblem(message).device.value,
                                                  DeviceAndProblem(message).problem)
                  && p.history == history)
            && (!assembly && !trouble ==>
                  p.reply == ChatReply(Request(outcomes).value)
                  && p.history == AppendExchange(history, message, Request(outcomes).value)))
  {
  }

  /** A troubleshooting reply names a device found in the message and carries the message as the problem. */
  lemma TroubleshootingReplyFields(history: seq<HistoryEntry>, hasModel: bool, message: string,
                                   context: seq<ContextEntry>, outcomes: seq<Outcome>)
    requires MaxRetries <= |outcomes|
    ensures var p := Process(history, hasModel, message, context, outcomes);
      p.reply.TroubleshootingReply? ==>
        p.reply.deviceName in Devices && Contains(ToLower(message), p.reply.deviceName) && p.reply.problem == message
  {
    DeviceFound(message);
  }

  lemma DeviceFound(message: string)
    ensures var info := DeviceAndProblem(message);
      info.device.Some? ==>
        info.device.value in Devices && Contains(ToLower(message), info.device.value) && info.problem == message
  {
  }

  lemma ProcessKeepsHistoryShape(history: seq<HistoryEntry>, hasModel: bool, message: string,
                                 context: seq<ContextEntry>, outcomes: seq<Outcome>)
    requires MaxRetries <= |outcomes| && HistoryWellFormed(history)
    ensures HistoryWellFormed(Process(history, hasModel, message, context, outcomes).history)
  {
    if hasModel && Request(outcomes).Returned? {
      AppendExchangeKeepsShape(history, message, Request(outcomes).value);
    }
  }

  // ---------------------------------------------------------------------------
  // The service object

  class GeminiService {
    /** Whether a model was configured (an API key was present). */
    const hasModel: bool
    var conversationHistory: seq<HistoryEntry>

    ghost predicate Valid()
      reads this
    {
      HistoryWellFormed(conversationHistory)
    }

    constructor(hasModel: bool)
      ensures this.hasModel == hasModel && conversationHistory == [] && Valid()
    {
      this.hasModel := hasModel;
      conversationHistory := [];
    }

    /** `isAvailable()` */
    function IsAvailable(): bool
    {
      hasModel
    }

    method ClearHistory()
      modifies this
      ensures conversationHistory == [] && Valid()
    {
      conversationHistory := [];
    }

    /** `chat(message, context)` */
    method Chat(message: string, context: seq<ContextEntry>, outcomes: seq<Outcome>)
      returns (result: Thrown<Reply>, prompt: Option<ChatPrompt>)
      requires MaxRetries <= |outcomes| && Valid()
      modifies this
      ensures ChatRun(result, conversationHistory, prompt) ==
        ChatStep(old(conversationHistory), hasModel, message, context, outcomes)
      ensures Valid()
    {
      if !hasModel {
        return Threw(NoModelMessage), None;
      }
      prompt := Some(ChatPrompt(ContextString(context), PromptWindow(conversationHistory), message));
      var attempt, waits := MakeRequestWithRetry(outcomes, MaxRetries);
      DefaultRetries(outcomes);
      match attempt
      case Answered(response) =>
        AppendExchangeKeepsShape(conversationHistory, message, response);
        conversationHistory := AppendExchange(conversationHistory, message, response);
        result := Returned(ChatReply(response));
      case Rethrown(m) =>
        result := Threw(m);
    }

    /** `processMessage(message, context)` */
    method ProcessMessage(message: string, context: seq<ContextEntry>, outcomes: seq<Outcome>) returns (reply: Reply)
      requires MaxRetries <= |outcomes| && Valid()
      modifies this
      ensures Processed(reply, conversationHistory) ==
        Process(old(conversationHistory), hasModel, message, context, outcomes)
      ensures Valid()
    {
      if !hasModel {
        return GetFallbackResponse(message);
      }
      var lowerMessage := ToLower(message);
      if IsAssemblyRequest(lowerMessage) {
        var itemName := ExtractItemName(message);
        if itemName.Some? {
          var attempt, waits := MakeRequestWithRetry(outcomes, MaxRetries);
          DefaultRetries(outcomes);
          reply := if attempt.Answered? then AssemblyReply(attempt.text, itemName.value) else GetFallbackResponse(message);
          return;
        }
      }
      if IsTroubleshootingRequest(lowerMessage) {
        var deviceInfo := ExtractDeviceAndProblem(message);
        if deviceInfo.device.Some? {
          var attempt, waits := MakeRequestWithRetry(outcomes, MaxRetries);
          DefaultRetries(outcomes);
          reply := if attempt.Answered? then TroubleshootingReply(attempt.text, deviceInfo.device.value, deviceInfo.problem)
                   else GetFallbackResponse(message);
          return;
        }
      }
      var result, prompt := Chat(message, context, outcomes);
      reply := if result.Returned? then result.value else GetFallbackResponse(message);
    }
  }
}
