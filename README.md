# HoloHelp core, modelled in Dafny

HoloHelp is an AR troubleshooting assistant. A camera view recognises a device, and a backend sends it to a problem selector. The selected phone problem is then played back as a sequence of timed steps on a 3D phone model, with spoken guidance. A Gemini-backed assistant (with canned fallbacks) answers free-text questions.

This project models the decision logic of that core:

- **`ArCanvas`** models `src/components/ARCanvas.jsx`. It covers the step player: its four pieces of React state, the 50 ms interval, and the control handlers. Each is a pure transition on a `PlayerState`, and the class `StepPlayer` updates its fields in place by exactly that transition. It also covers the two title classifiers that choose the phone screen and the highlight target, and the screen cache `PhoneScreen`.
- **`Server`** models `backend/server.js`:
  - the table of the five phone instruction sets;
  - `classifyDevice`, written both as a loop method and as the earliest-maximum function it computes;
  - the four request handlers, written as functions from request fields to a status code and a body.
- **`ApiClient`** models the pure helpers of `src/services/api.js`:
  - the detection and instruction formatters;
  - the line parser `parseAssemblyInstructions`, a loop method proved against a fold over classified lines, and the two regular expressions it uses, proved against a pattern-level reading;
  - the error-message mapping;
  - the predefined guide lookup.
- **`Gemini`** models `src/services/geminiService.js`:
  - the request keyword tests and the item-name and device extraction;
  - the fallback replies;
  - the retry loop, driven by a given sequence of attempt outcomes;
  - the context string and the conversation history (the six-entry prompt window and the ten-entry limit);
  - the routing of `processMessage`, with the service object as a class.
- **`Voice`** models `src/utils/voiceGuidance.js`: voice selection by an eight-level priority list, the sentences spoken for steps, introductions, completion, progress and summary, and the manager object whose fields track speech.
- **`FaqMatcher`** models `src/utils/faqMatcher.js` and **`LabelMap`** models `src/utils/mapLabel.js`: first-match table lookups on lower-cased text.
- **`JsText`** holds the JavaScript string built-ins the core relies on: `toLowerCase`, `includes`, `startsWith`, `trim`, `split`, `join`, the first-match form of `replace`, and decimal rendering of numbers. It also lists the names every object inherits from `Object.prototype`, which matter for the source's `obj[key]` lookups.

Some behaviours of the source are proved as they are, because they are not bugs:

- A restart on the first step while playing leaves the interval stopped although `isPlaying` stays true. None of the effect's dependencies changed, so the effect does not re-run.
- Play/pause always restarts the elapsed time of the step.
- The two classifiers rank "settings" and "battery" in opposite orders.
- Chat topics and the fallback greeting match substrings: "search" reaches the AR topic and "this" counts as "hi".
- Six devices of the extraction list can never be reported, because an earlier, shorter name occurs inside them.
- "build a" and "assemble a" never decide the assembly test.
- A retry budget below one makes no attempt at all.
- The introduction spoken for an inherited key is silent, while the completion message for one speaks what the inherited value prints as: `function Object() { [native code] }` for `constructor`.
- A label alias with an upper-case letter can never match.

## Model

| member | source | states |
|---|---|---|
| ArCanvas.DurationNonZero | src/components/ARCanvas.jsx:839 | `duration \|\| 5000` is never 0, and is positive when the stored duration is not negative |
| ArCanvas.ProgressBounds | src/components/ARCanvas.jsx:845 | for a positive duration, the progress `min(elapsed/duration*100, 100)` lies in [0, 100] and reaches 100 exactly when the elapsed time reaches the duration |
| ArCanvas.ResyncKeepsValid | src/components/ARCanvas.jsx:836-860 | re-running the timer effect keeps the player invariant: step index in range, progress in [0, 100] when every step's duration is positive, and an interval only while playing an existing, uncompleted step |
| ArCanvas.TickKeepsValid | src/components/ARCanvas.jsx:843-852 | one firing of the interval keeps the player invariant |
| ArCanvas.ControlsKeepValid | src/components/ARCanvas.jsx:919-944 | next, previous, restart, play/pause, a sidebar click and "Review Steps" each keep the player invariant |
| ArCanvas.HandlersKeepValid | src/components/ARCanvas.jsx:836-944 | every handler and the interval keep `currentStep` in range and, when every step's duration is positive, the progress within [0, 100] |
| ArCanvas.AdvanceBeforeLast | src/components/ARCanvas.jsx:888-896 | completing a step before the last moves to the next index, clears progress and elapsed time, fires `onStepComplete(next index)`, and keeps the interval running exactly when playing and not completed |
| ArCanvas.AdvanceAtLast | src/components/ARCanvas.jsx:904-908 | completing the last step marks the run completed, stops playback and the interval, keeps the index and progress, and fires `onInstructionComplete` once |
| ArCanvas.PrevStepBehaviour | src/components/ARCanvas.jsx:931-937 | previous moves back one step and clears progress exactly when the player is past step 0 and not completed; otherwise nothing changes |
| ArCanvas.RestartBehaviour | src/components/ARCanvas.jsx:939-944 | restart returns to step 0, uncompleted, with no progress, and leaves `isPlaying` and the callbacks fired so far unchanged |
| ArCanvas.RestartOnFirstStepStopsTimer | src/components/ARCanvas.jsx:939-944 | a restart while step 0 is playing leaves `isPlaying` true but no interval, so any number of ticks changes nothing |
| ArCanvas.SelectStepBehaviour | src/components/ARCanvas.jsx:1204-1210 | a sidebar click jumps to the clicked step with cleared progress exactly when the run is not completed and the step differs; otherwise nothing changes |
| ArCanvas.PlayPauseBehaviour | src/components/ARCanvas.jsx:919-924 | play/pause flips `isPlaying`, restarts the elapsed time, keeps the progress, runs the interval exactly when it started playing an uncompleted step, and twice is the identity on `isPlaying` |
| ArCanvas.TickOnlyWhilePlaying | src/components/ARCanvas.jsx:836-838 | the interval has no effect while paused or completed |
| ArCanvas.TickBeforeDuration | src/components/ARCanvas.jsx:843-846 | a tick below the duration adds 50 ms and updates the progress only |
| ArCanvas.TickAtDuration | src/components/ARCanvas.jsx:848-851 | the tick that reaches the duration advances exactly as the Next button does, and on the last step leaves the progress at 100 when every step's duration is positive |
| ArCanvas.NegativeDurationProgress | src/components/ARCanvas.jsx:839-851 | a stored duration of -100 survives `\|\| 5000`, and the first firing completes the single step with the progress at -50, outside [0, 100] |
| ArCanvas.IterateAdd | src/components/ARCanvas.jsx:843 | `a + b` repetitions are `a` repetitions followed by `b` |
| ArCanvas.IterateFixed | src/components/ARCanvas.jsx:843 | repeating a transition that leaves a state unchanged leaves it unchanged |
| ArCanvas.TicksAdd | src/components/ARCanvas.jsx:843 | `a + b` ticks are `a` ticks followed by `b` ticks |
| ArCanvas.TickOnce | src/components/ARCanvas.jsx:843 | `n` ticks are `n - 1` ticks followed by one |
| ArCanvas.TicksFor | src/components/ARCanvas.jsx:843-848 | the number of 50 ms ticks a step lasts is the least `k` with `50 k >= duration` |
| ArCanvas.TicksWithinStep | src/components/ARCanvas.jsx:843-846 | when every step's duration is positive: before its last tick, a freshly started step has elapsed `50 j` ms with the matching progress, and nothing else has changed |
| ArCanvas.TicksThroughStep | src/components/ARCanvas.jsx:843-851 | when every step's duration is positive, a fresh interval plays its step to the end and then either starts the next step fresh, firing its index, or completes the run, firing completion |
| ArCanvas.TickFinishesStep | src/components/ARCanvas.jsx:848-851 | when every step's duration is positive, the whole state after the tick that reaches the duration, for a middle step and for the last step |
| ArCanvas.CompletionEvents | src/components/ARCanvas.jsx:889-908 | the callbacks of a run from step `i`: each later index once, in order, then completion |
| ArCanvas.CombineRun | src/components/ARCanvas.jsx:888-908 | a step that ran out, followed by a run of the rest, is a run from that step |
| ArCanvas.RunToCompletion | src/components/ARCanvas.jsx:836-908 | when every step's duration is positive, a fresh interval on any step plays every remaining step and ends completed, paused, on the last step, with exactly the completion callbacks |
| ArCanvas.RunFromLastStep | src/components/ARCanvas.jsx:904-908 | the run from the last step completes after its own ticks |
| ArCanvas.RunFromEarlierStep | src/components/ARCanvas.jsx:889-896 | a run from an earlier step is its step followed by the run from the next |
| ArCanvas.TicksWithoutTimer | src/components/ARCanvas.jsx:836-838 | once no interval is installed, further ticks change nothing |
| ArCanvas.PlayThrough | src/components/ARCanvas.jsx:80-85 | when every step's duration is positive, pressing play on a fresh player and letting the interval run fires `onStepComplete(1..N-1)` in order, then completion once, and nothing afterwards |
| ArCanvas.ScreenTypePriority | src/components/ARCanvas.jsx:819-823 | the screen is settings, battery, restart or home, by the first of "settings", "battery", "restart"/"power" in the lower-cased title, in both directions |
| ArCanvas.TargetPriority | src/components/ARCanvas.jsx:609-629 | the highlight target is decided by "battery"/"usage", then "settings", then "restart"/"power", then "app"/"close", in both directions |
| ArCanvas.ClassifiersDisagree | src/components/ARCanvas.jsx:609-629 | a title naming both battery and settings gets the settings screen but the battery target |
| ArCanvas.ClassifiersIgnoreCase | src/components/ARCanvas.jsx:819 | both classifiers depend only on the lower-cased title |
| ArCanvas.PhoneScreen.constructor | src/components/ARCanvas.jsx:826-831 | the screen starts without a cached type and with no texture built |
| ArCanvas.PhoneScreen.Update | src/components/ARCanvas.jsx:810-834 | the texture is rebuilt exactly when there is a step whose screen type differs from the cached one; the cache then holds that type |
| ArCanvas.StepPlayer.constructor | src/components/ARCanvas.jsx:80-85 | the player starts on step 0, paused, uncompleted, with no progress, and satisfies the invariant |
| ArCanvas.StepPlayer.RunEffect | src/components/ARCanvas.jsx:836-860 | the fields become the effect's re-run for the dependencies before the handler |
| ArCanvas.StepPlayer.CompleteStep | src/components/ARCanvas.jsx:888-916 | the fields become the step-completion transition of the old state |
| ArCanvas.StepPlayer.Tick | src/components/ARCanvas.jsx:843-852 | the fields become one interval firing of the old state |
| ArCanvas.StepPlayer.HandleNextStep | src/components/ARCanvas.jsx:926-929 | the fields become the Next transition of the old state |
| ArCanvas.StepPlayer.HandlePrevStep | src/components/ARCanvas.jsx:931-937 | the fields become the Previous transition of the old state |
| ArCanvas.StepPlayer.HandleRestart | src/components/ARCanvas.jsx:939-944 | the fields become the Restart transition of the old state |
| ArCanvas.StepPlayer.HandlePlayPause | src/components/ARCanvas.jsx:919-924 | the fields become the play/pause transition of the old state |
| ArCanvas.StepPlayer.HandleSelectStep | src/components/ARCanvas.jsx:1204-1210 | the fields become the sidebar-click transition of the old state |
| ArCanvas.StepPlayer.HandleReviewSteps | src/components/ARCanvas.jsx:1314 | the fields become the "Review Steps" transition of the old state |
| Server.Keys | backend/server.js:26-247 | `Object.keys` of the table lists the keys in table order |
| Server.SetIds | backend/server.js:26-247 | the instruction set ids, in key order |
| Server.Lookup | backend/server.js:385 | an own-property lookup finds a set exactly for a key of the table, and that set is stored under the key |
| Server.FindById | backend/server.js:478-480 | the index found is the first with the requested id, and nothing is found exactly when no set has that id |
| Server.SumDurationsPositive | backend/server.js:420 | a sum of positive durations is at least the number of steps |
| Server.SumOfThree | backend/server.js:420 | the duration sum of three steps is their sum |
| Server.BatteryDrainWellFormed | backend/server.js:27-70 | the battery set has steps 1, 2, 3 with positive durations, targets and effects, 30000 ms in total |
| Server.SlowPerformanceWellFormed | backend/server.js:71-114 | the speed set is well formed and lasts 37000 ms |
| Server.OverheatingWellFormed | backend/server.js:115-158 | the overheating set is well formed and lasts 30000 ms |
| Server.WifiIssuesWellFormed | backend/server.js:159-202 | the WiFi set is well formed and lasts 48000 ms |
| Server.StorageFullWellFormed | backend/server.js:203-246 | the storage set is well formed and lasts 39000 ms |
| Server.TableKeys | backend/server.js:26-247 | the five problem keys, in declaration order |
| Server.TableSetIds | backend/server.js:26-247 | the five set ids, in key order |
| Server.TableWellFormed | backend/server.js:26-247 | every stored set is well formed |
| Server.PhoneConfidence | backend/server.js:253-261 | the mapping gives a confidence between 0 and 0.95, and 0 for every name inherited from `Object.prototype` |
| Server.Confidences | backend/server.js:266-272 | one confidence per object, read through its lower-cased label |
| Server.BestIndex | backend/server.js:266-272 | the chosen index has a positive confidence that no object exceeds and no earlier object reaches; nothing is chosen exactly when no confidence is positive |
| Server.BestIndexStep | backend/server.js:266-272 | one more object takes over exactly when it is positive and strictly beats the best so far |
| Server.LookUpConfidence | backend/server.js:267 | the looked-up value is the label's confidence |
| Server.ClassifyDevice | backend/server.js:250-281 | the loop returns the classification of the earliest highest-confidence object, or null |
| Server.BestIndexUnique | backend/server.js:266-272 | an index with positive, highest confidence above every earlier one is the one chosen |
| Server.ClassifyChoice | backend/server.js:274-279 | null exactly when no label is known; otherwise a mobile phone with the confidence and label of the earliest maximum |
| Server.ClassifyIgnoresCase | backend/server.js:267 | labels that agree when lower-cased give the same choice, each reported in the spelling it was given |
| Server.RecognizeDeviceOutcomes | backend/server.js:314-376 | 400 exactly without objects, 404 exactly when none is recognised, 200 otherwise, carrying the classifier's confidence, label and the objects |
| Server.Enrich | backend/server.js:410-418 | a step keeps every stored field and gains metadata with its voice-over, its target (default "screen") and its effects (default highlight) |
| Server.EnrichAll | backend/server.js:408-418 | every step is enriched, in order |
| Server.LookupAt | backend/server.js:385 | with distinct keys, each entry's key finds its own set |
| Server.PhoneProblemValidation | backend/server.js:385-399 | 400 exactly for a missing or unknown problem, listing the table's keys; nothing else but 200 |
| Server.PhoneProblemSteps | backend/server.js:401-428 | a known problem answers 200 with its id, its steps in order and enriched, the step count and the duration sum, which for a well-formed set is at least the step count and positive |
| Server.InheritedKeyAnswers | backend/server.js:385-441 | an inherited name that is not a key gets 500 from the code as written and 400 from the intended guard |
| Server.InstructionsOutcomes | backend/server.js:445-519 | the selector id gives the one-step selector set; any other id is served (200, totals consistent) exactly when the first key whose set holds it is truthy, and otherwise gets 404 with the id list |
| Server.InstructionsWithTruthyKeys | backend/server.js:477-489 | on a table whose keys are all non-empty, an id other than the selector's is served exactly when some set holds it |
| Server.EmptyKeyNotServed | backend/server.js:477-482 | a set stored under the key `""` is found by `find` but turned away with 404 by `!problem` |
| Server.InstructionsAgreeWithPhoneProblem | backend/server.js:445-519 | fetching a set by id gives the same totals and, step by step, the same steps as selecting its problem, without the added metadata |
| Server.FindByIdAt | backend/server.js:478-480 | with distinct ids, an entry's id finds that entry |
| Server.DistinctFromLists | backend/server.js:26-247 | distinct key and id lists make a table with distinct keys and ids |
| Server.ServedListsDistinct | backend/server.js:26-247 | the served keys and ids have no repeats |
| Server.ServedTableConsistent | backend/server.js:26-247 | the served table has distinct keys and ids, non-empty keys, and no set with the selector id |
| Server.ChatOutcomes | backend/server.js:560-609 | 400 exactly without a message; otherwise the topic's reply, not AI-powered, echoing the context flag, the device type and the AR mode |
| Server.ChatTopicOrderFirst | backend/server.js:572-579 | battery, then slow/lag, then hot/heat, then wifi/internet are tried in that order, in both directions |
| Server.ChatTopicOrderLast | backend/server.js:580-584 | then storage/space, then ar/3d, and the default reply exactly when nothing matched |
| Server.ChatIgnoresCase | backend/server.js:569 | the whole response depends only on the lower-cased message |
| Server.ChatArMatchesInsideWords | backend/server.js:582 | a message containing "search" with no earlier keyword is answered with the AR text |
| Server.SearchHoldsAr | backend/server.js:582 | "search" contains "ar" two characters in |
| ApiClient.DetectionOfRecognizedPhone | src/services/api.js:200-208 | a recognised phone formats to the selector id, the phone type, the classifier's confidence and the given objects |
| ApiClient.FormatSteps | src/services/api.js:214-227 | one formatted step per step, each formatted with its own index |
| ApiClient.FormatInstructionsShape | src/services/api.js:211-229 | count, order and fields are kept; ids are step numbers; a falsy duration becomes 3000 and a missing position [0, 0, -1]; only the first step is active |
| ApiClient.FromServerSteps | src/services/api.js:211-229 | each stored step is carried to the client unchanged, in order |
| ApiClient.FormattedEntry | src/services/api.js:211-229 | a set stored under a non-empty key, fetched by id and formatted, has ids 1, 2, 3, the stored positive durations, and the server's totals |
| ApiClient.SkipSpaces | src/services/api.js:242 | `\s*` stops at the first character that is not white space |
| ApiClient.DigitsEnd | src/services/api.js:242 | `\d+` stops at the first non-digit |
| ApiClient.KeywordLength | src/services/api.js:242 | the `^(step\|#)` match, case-insensitive, lies within the text |
| ApiClient.NumberDotEnd | src/services/api.js:242 | a `^\d+\.` match has at least one digit and a full stop |
| ApiClient.StepPrefixEnd | src/services/api.js:249 | the `^(step\|#)\s*\d+[:.]` match is non-empty and within the text |
| ApiClient.SkipSpacesSpaces | src/services/api.js:242 | everything the greedy white-space match skips is white space |
| ApiClient.DigitsEndDigits | src/services/api.js:242 | everything the greedy digit match passes is a digit |
| ApiClient.SkipSpacesStops | src/services/api.js:242 | the greedy white-space match ends at the first non-space |
| ApiClient.DigitsStop | src/services/api.js:242 | the greedy digit match ends at the first non-digit |
| ApiClient.IsHeaderIff | src/services/api.js:242 | the greedy header test agrees with the two regular expressions, in both directions |
| ApiClient.BoldIsNotHeader | src/services/api.js:242 | a line starting with `**` is never a header |
| ApiClient.StripTitleCases | src/services/api.js:249 | a header with `:` or `.` after its number loses that prefix (and then a leading `N.`); one without keeps its whole trimmed text |
| ApiClient.KindOf | src/services/api.js:240-259 | a line that goes into a description is never empty |
| ApiClient.Kinds | src/services/api.js:238 | one kind per line |
| ApiClient.KindsAt | src/services/api.js:238 | each line is classified on its own |
| ApiClient.FeedLineIsFeed | src/services/api.js:239-259 | the loop body on a trimmed line is the step for that line's kind |
| ApiClient.FeedNextLine | src/services/api.js:238-260 | the fold over one more line is one more loop iteration |
| ApiClient.ReadLine | src/services/api.js:239-259 | the loop body updates the pushed steps, current step and counter as one iteration does |
| ApiClient.ParseAssemblyInstructions | src/services/api.js:232-273 | the loop's result is the parse of the text |
| ApiClient.Contents | src/services/api.js:253-256 | description lines taken from classified lines are never empty |
| ApiClient.FeedHeaderNumbering | src/services/api.js:243-251 | a header line starts the next numbered step with its title |
| ApiClient.FeedOtherNumbering | src/services/api.js:253-256 | any other line changes at most the description of the current step |
| ApiClient.FeedAllNumbering | src/services/api.js:238-260 | after any lines, there is one step per header, numbered from 1 and titled in order, 5000 ms each |
| ApiClient.SumParsedFixed | src/services/api.js:265 | steps of 5000 ms each sum to 5000 times their count |
| ApiClient.FinishNumbering | src/services/api.js:262-271 | the result has one step per header, numbered 1..n, total n and estimated time 5000 n |
| ApiClient.ParseNumbering | src/services/api.js:232-273 | the parse of any text has one step per header line, in order, numbered and titled from its header |
| ApiClient.FeedAllAppend | src/services/api.js:238-260 | the loop over two runs of lines is the loop over the first, then the second |
| ApiClient.PreambleLeavesStart | src/services/api.js:253 | lines without a header, before any step, leave the parser in its start state |
| ApiClient.KindsSnoc | src/services/api.js:238 | classifying one more line appends its kind |
| ApiClient.KindsAppend | src/services/api.js:238 | classifying concatenated lines concatenates their kinds |
| ApiClient.PreambleDropped | src/services/api.js:253-256 | lines before the first header do not affect the parse |
| ApiClient.FeedContentJoins | src/services/api.js:253-256 | a content line is appended to the description, after one space unless it is empty |
| ApiClient.SectionDescription | src/services/api.js:243-258 | a header and the lines up to the next one build a single step whose description is its content lines joined by single spaces |
| ApiClient.BoldLineSkipped | src/services/api.js:253 | a line starting with `**` is skipped |
| ApiClient.HandleErrorApi | src/services/api.js:287-298 | statuses 400, 404, 500 and 0 give fixed texts; any other status gives the error's own message, or the generic text when it is empty |
| ApiClient.HandleErrorOrder | src/services/api.js:302-310 | a key problem is reported before a quota problem, and the generic text comes last |
| ApiClient.GetErrorMessage | src/services/api.js:314-317 | a plain string is its own message; any other error gets the handler's message |
| ApiClient.GetFallbackMessage | src/services/api.js:320-328 | Gemini first, then the backend, then local guidance |
| ApiClient.GetPredefinedInstructions | src/services/api.js:352-369 | a guide is found exactly when the lower-cased item type is "tv", and it is the TV stand guide |
| ApiClient.PredefinedInheritedKey | src/services/api.js:368 | an item type that lower-cases to an inherited name is found by the code as written and by no intended lookup |
| ApiClient.PredefinedConstructorKey | src/services/api.js:368 | "constructor" is such an item type |
| ApiClient.TvStandGuideSteps | src/services/api.js:356-361 | the TV stand guide has four steps numbered 1..4 |
| Gemini.AnyKeyword | src/services/geminiService.js:290-304 | `some(includes)` holds exactly when a keyword occurs in the text |
| Gemini.AssemblyKeywordsRedundant | src/services/geminiService.js:290-296 | the assembly test is decided by its first eight keywords alone |
| Gemini.FirstPrefix | src/services/geminiService.js:310 | the alternative chosen is the first, in pattern order, that matches at the start |
| Gemini.StripAlternatives | src/services/geminiService.js:310 | deleting filler words never lengthens the text or adds characters |
| Gemini.DropMarks | src/services/geminiService.js:311 | removing `?`, `!` and `.` leaves none, and adds no character |
| Gemini.DropMarksAppend | src/services/geminiService.js:311 | removing marks distributes over concatenation |
| Gemini.DropMarksKeeps | src/services/geminiService.js:311 | text without marks is unchanged |
| Gemini.FillersNotEmpty | src/services/geminiService.js:310 | no filler alternative is empty |
| Gemini.ExtractItemNameShape | src/services/geminiService.js:306-315 | an extracted name is non-empty, lower case, without marks or outer white space; null only when the message cleans down to nothing |
| Gemini.FillerHeads | src/services/geminiService.js:310 | no two filler alternatives start with the same two characters |
| Gemini.LeadingFillerDropped | src/services/geminiService.js:310 | a filler word at the front is deleted whatever follows it |
| Gemini.FirstContained | src/services/geminiService.js:333-338 | the device chosen is the first in list order that occurs in the text, and none is chosen when none occurs |
| Gemini.FindContained | src/services/geminiService.js:333-338 | the loop with `break` finds that first device |
| Gemini.ExtractDeviceAndProblem | src/services/geminiService.js:317-344 | the method returns the device/problem pair the function describes |
| Gemini.ShadowedNeverFound | src/services/geminiService.js:322-338 | a name that contains an earlier name of the list is never found |
| Gemini.OccursIn | src/services/geminiService.js:336 | a slice equal to a text means the text occurs |
| Gemini.TvShadows | src/services/geminiService.js:322-331 | "tv" occurs in "samsung tv", "lg tv" and "sony tv" |
| Gemini.RouterAndPhoneShadow | src/services/geminiService.js:322-331 | "router" occurs in "wifi router", and "phone" in "smartphone" and "iphone" |
| Gemini.ShadowedDevices | src/services/geminiService.js:322-338 | those six devices are never reported, whatever the message |
| Gemini.DeviceAndProblemOutcome | src/services/geminiService.js:333-343 | a device is found exactly when one occurs in the lower-cased message; the problem is then the message, otherwise the general-issue text |
| Gemini.FirstContainedFound | src/services/geminiService.js:333-338 | a first occurring name exists exactly when some name occurs |
| Gemini.GetFallbackResponse | src/services/geminiService.js:346-370 | the fallback is always a chat reply with one of the three canned texts |
| Gemini.FallbackPrecedence | src/services/geminiService.js:349-367 | thanks win over greetings, tested on substrings of the lower-cased message |
| Gemini.FallbackIgnoresCase | src/services/geminiService.js:347 | the fallback depends only on the lower-cased message |
| Gemini.MakeRequestWithRetry | src/services/geminiService.js:112-129 | the loop's result and sleeps are the retry policy's |
| Gemini.RetryTrace | src/services/geminiService.js:112-129 | attempts stay within the budget, the n-th sleep lasts (attempt + n) s, every attempt before the last failed retryably, the last answered or failed non-retryably or on the final attempt, and no attempt happens beyond the budget |
| Gemini.DefaultRetries | src/services/geminiService.js:112 | with three retries a request ends answered or rethrown, after at most three attempts |
| Gemini.TruthyIndices | src/services/geminiService.js:210 | the positions of exactly the entries with a truthy value, strictly increasing |
| Gemini.ContextLinesTruthy | src/services/geminiService.js:209-212 | line `l` of the context string is `key: value` of the `l`-th truthy entry, for string and non-string values alike, and there are no other lines |
| Gemini.ContextIgnoresFalsy | src/services/geminiService.js:210 | an entry with a falsy value leaves the context string unchanged |
| Gemini.PromptWindowIsLatest | src/services/geminiService.js:220 | the prompt shows the six latest history entries, or all when fewer |
| Gemini.AppendExchangeKeepsShape | src/services/geminiService.js:230-238 | appending an exchange keeps at most ten alternating entries, ends with the message and the reply, and keeps the latest older entries before them |
| Gemini.ProcessRouting | src/services/geminiService.js:252-287 | without a model or on a failed request the fallback and an unchanged history; otherwise assembly (the model's text and the extracted item name), then troubleshooting (the text, the found device and the problem), then chat (the text as a chat reply), and only a chat records the exchange |
| Gemini.TroubleshootingReplyFields | src/services/geminiService.js:267-276 | a troubleshooting reply names a device found in the message and carries the message as its problem |
| Gemini.DeviceFound | src/services/geminiService.js:333-338 | a found device belongs to the list and occurs in the lower-cased message, and the problem is the message |
| Gemini.ProcessKeepsHistoryShape | src/services/geminiService.js:252-287 | processing a message keeps the history well formed |
| Gemini.GeminiService.constructor | src/services/geminiService.js:73-83 | a new service has an empty history |
| Gemini.GeminiService.ClearHistory | src/services/geminiService.js:373-375 | clearing empties the history |
| Gemini.GeminiService.Chat | src/services/geminiService.js:203-249 | the result, the new history and the prompt are those of one chat step on the old history |
| Gemini.GeminiService.ProcessMessage | src/services/geminiService.js:252-287 | the reply and the new history are those of processing the message on the old history |
| Voice.FindVoice | src/utils/voiceGuidance.js:108-111 | `voices.find` gives the first voice passing a test, or nothing when none does |
| Voice.SelectBestVoice | src/utils/voiceGuidance.js:95-114 | the nested loops return the voice the priority order selects, else the first voice |
| Voice.BestFromFirst | src/utils/voiceGuidance.js:108-111 | the search from a test on stops at the first test some voice passes |
| Voice.BestFromNone | src/utils/voiceGuidance.js:113 | when no remaining test is passed, the first voice is chosen |
| Voice.SelectBestByPriority | src/utils/voiceGuidance.js:95-114 | the choice is the first voice passing the most preferred test any voice passes, otherwise the first voice |
| Voice.EnUsIsEn | src/utils/voiceGuidance.js:97-106 | an "en-US" language is an "en" language |
| Voice.MatchesIsEnglish | src/utils/voiceGuidance.js:97-106 | every test asks for an English voice |
| Voice.BestFromEnglish | src/utils/voiceGuidance.js:108-111 | when some voice is English, the search from any test finds an English voice |
| Voice.SelectBestEnglish | src/utils/voiceGuidance.js:95-114 | when some voice is English, the chosen voice is English |
| Voice.OrEmpty | src/utils/voiceGuidance.js:122 | a missing field reads as the empty text |
| Voice.StepInstructionReadsBack | src/utils/voiceGuidance.js:116-124 | the step sentence starts with "Step n of t. title. " and reads back the two numbers |
| Voice.Introduction | src/utils/voiceGuidance.js:126-137 | there is an introduction for every problem type except an inherited name |
| Voice.IntroductionOwnKeys | src/utils/voiceGuidance.js:127-135 | each of the five problem types gets its own introduction |
| Voice.IntroductionDefault | src/utils/voiceGuidance.js:135 | every other key that is not inherited gets the default introduction |
| Voice.OwnCompletion | src/utils/voiceGuidance.js:140-146 | the message object has an own property exactly for the five problem types |
| Voice.CompletionText | src/utils/voiceGuidance.js:148-151 | the completion sentence is the key's message followed by the fixed closing sentence |
| Voice.CompletionOwnKeys | src/utils/voiceGuidance.js:140-148 | each of the five problem types gets its own message |
| Voice.CompletionInherited | src/utils/voiceGuidance.js:148 | a name inherited from `Object.prototype` finds a truthy value, and its printed form is the message |
| Voice.CompletionDefault | src/utils/voiceGuidance.js:148 | every other key gets the congratulation |
| Voice.CompletionForConstructor | src/utils/voiceGuidance.js:148 | for `constructor` the message is `function Object() { [native code] }` |
| Voice.CompletionIsCaseSensitive | src/utils/voiceGuidance.js:148 | the key is not lower-cased: `Battery_drain` gets the congratulation |
| JsText.InheritedString | src/utils/voiceGuidance.js:148 | concatenating an inherited member prints `[object Object]` for `__proto__` and a `function ...` source text for the others |
| Voice.StepProgressCounts | src/utils/voiceGuidance.js:154-160 | on a step inside the run, the one-based step and the never-negative remaining count add up to the total |
| Voice.StepLabels | src/utils/voiceGuidance.js:164-166 | one `Step k: title` label per step, numbered from 1 |
| Voice.StepSummarySnoc | src/utils/voiceGuidance.js:164-166 | one more step adds `. Step n: title` to the summary |
| Voice.RepeatReplacesFirstUnderscore | src/utils/voiceGuidance.js:163 | only the first underscore of the problem type becomes a space |
| Voice.VoiceGuidanceManager.constructor | src/utils/voiceGuidance.js:3-10 | the manager starts enabled, silent, with no current utterance |
| Voice.VoiceGuidanceManager.Stop | src/utils/voiceGuidance.js:182-188 | after stopping nothing is spoken or current |
| Voice.VoiceGuidanceManager.Speak | src/utils/voiceGuidance.js:37-93 | nothing happens unless enabled with non-empty text; otherwise the text in the best voice becomes current, and speech stops when interrupting |
| Voice.VoiceGuidanceManager.SpeechStarted | src/utils/voiceGuidance.js:66-69 | the engine's start marks speech as playing |
| Voice.VoiceGuidanceManager.SpeechEnded | src/utils/voiceGuidance.js:71-83 | the engine's end or error clears speaking and the current utterance |
| Voice.VoiceGuidanceManager.SetEnabled | src/utils/voiceGuidance.js:172-180 | disabling stops speech; enabling announces it in the best voice |
| Voice.VoiceGuidanceManager.SpeakStepInstruction | src/utils/voiceGuidance.js:116-124 | silent, with speaking and the current utterance unchanged, for a missing step or while disabled; otherwise the step sentence interrupts and becomes the current utterance |
| Voice.VoiceGuidanceManager.SpeakProblemIntroduction | src/utils/voiceGuidance.js:126-137 | silent, with the state unchanged, for an inherited name or while disabled; otherwise the introduction interrupts and becomes the current utterance |
| Voice.VoiceGuidanceManager.SpeakCompletionMessage | src/utils/voiceGuidance.js:139-152 | while enabled the completion sentence interrupts and becomes the current utterance; while disabled nothing is spoken and the state is unchanged |
| Voice.VoiceGuidanceManager.SpeakStepProgress | src/utils/voiceGuidance.js:154-160 | while enabled the progress sentence interrupts and becomes the current utterance; while disabled nothing is spoken and the state is unchanged |
| Voice.VoiceGuidanceManager.SpeakRepeatInstructions | src/utils/voiceGuidance.js:162-170 | while enabled the summary interrupts and becomes the current utterance; while disabled nothing is spoken and the state is unchanged |
| FaqMatcher.FirstMatch | src/utils/faqMatcher.js:24-28 | the entry chosen is the first whose keywords all occur, and none when none does |
| FaqMatcher.GetSmartResponse | src/utils/faqMatcher.js:22-30 | the answer is one of the four answers or the apology |
| FaqMatcher.SmartResponseFirstMatch | src/utils/faqMatcher.js:22-30 | the answer is that of the first entry whose keywords all occur in the lower-cased query |
| FaqMatcher.SmartResponseApology | src/utils/faqMatcher.js:29 | the apology comes exactly when no entry matches |
| FaqMatcher.SmartResponseIgnoresCase | src/utils/faqMatcher.js:23 | the answer depends only on the lower-cased query |
| FaqMatcher.RouterAnswerWins | src/utils/faqMatcher.js:3-20 | a query naming reset and router gets the router answer, whatever else it names |
| LabelMap.FirstHolding | src/utils/mapLabel.js:5-9 | the entry chosen is the first whose aliases hold the name, and none when none does |
| LabelMap.MapLabelToDevice | src/utils/mapLabel.js:1-11 | null exactly when no alias list holds the lower-cased label; otherwise a device of the map |
| LabelMap.MapLabelFirstWins | src/utils/mapLabel.js:5-9 | the first entry holding the label gives the device, even when later ones hold it too |
| LabelMap.MapLabelIgnoresCase | src/utils/mapLabel.js:4 | the label's case does not matter |
| LabelMap.MapLabelNoSubstringMatch | src/utils/mapLabel.js:6 | aliases are compared whole: "TV" does not match "smart tv" |
| LabelMap.UpperCaseAliasUnreachable | src/utils/mapLabel.js:4-6 | an alias with an upper-case letter can never be matched |

## Left out

- Rendering with three.js, the camera, textures and meshes is abstracted. Only the decisions about screen type, target, caching and timing are kept.
- Floating-point arithmetic: progress is an exact `real`. Confidences are integer hundredths: the classifier compares them, and the 200 body of `POST /api/recognize-device` reports them in hundredths (95 where the server sends 0.95).
- `toLowerCase` is modelled on ASCII letters only, with no Unicode case mapping.
- How a built-in function prints is engine-defined; JsText.InheritedString uses V8's form.
- Gemini.ContextLinesTruthy: a non-string context value is given by what `${value}` prints and by its truthiness, not computed from the value.
- Non-string request fields are out of scope. A missing or falsy field is `None` or the empty string.
- JSON parsing, `timestamp` fields, and the constant feature-flag objects in the responses (`ar_capabilities`, `ar_features`, `enhanced_features`) are left out.
- The constant `problems` object of the 400 body of `POST /api/phone-problem` (backend/server.js:389-395) is left out. It describes each problem key, and the model's 400 body keeps only the error text and `available_problems`.
- Network I/O is left out. This covers the `fetch` wrappers of the API client (health, device, chat and instruction requests), Express routing, and the Gemini calls. A model request is a given sequence of outcomes, and the sleep of the retry loop is recorded as a list of waits.
- The prompt texts sent to Gemini (the system prompt and the assembly and troubleshooting prompts) are not modelled beyond what the chat step records. Parsing the model's troubleshooting answer is not modelled either.
- `testGeminiConnection` is left out: it is a network probe.
- The "no model" throws of `generateAssemblyInstructions` and `generateTroubleshootingSteps` are left out. They cannot be reached from `processMessage`, which checks the model first.
- The speech-synthesis engine is left out, along with voice loading (`initializeVoices`), `isInitialized` and the speech queue. Its asynchronous callbacks are explicit methods, so event ordering is up to the caller.
- The voice guidance `pause`, `resume`, `test` and `getStatus` are left out. They only forward to the engine or report fields.
- Utterance rate, pitch and volume are left out.
- ArCanvas.ProgressBounds, ArCanvas.ResyncKeepsValid, ArCanvas.HandlersKeepValid, ArCanvas.TickAtDuration, ArCanvas.TicksWithinStep, ArCanvas.TicksThroughStep, ArCanvas.TickFinishesStep, ArCanvas.RunToCompletion and ArCanvas.PlayThrough: a negative stored duration is outside their contracts (`ArCanvas.NegativeDurationProgress` shows what happens then). No path in the repository produces one: the served table's durations are positive (`Server.TableWellFormed`), the parser stores 5000, and the formatter's default is 3000.
- React batching is left out: state updates are synchronous assignments.
- Every voice call made by ARCanvas is left out. ARCanvas speaks through its own local speech object (src/components/ARCanvas.jsx:23-37), not through the voice guidance manager. The calls are:
  - the immediate `speak` of the step title in handlePlayPause (src/components/ARCanvas.jsx:921-923), which `ArCanvas.OnPlayPause` does not model;
  - the `setTimeout`-delayed `speak` calls of handleStepCompletion (src/components/ARCanvas.jsx:898-914);
  - toggleVoice (src/components/ARCanvas.jsx:946-953), together with its `isVoiceEnabled` state. The toggle flips that state and speaks "Voice guidance activated" or stops speech. It never calls `setEnabled`, so `Voice.VoiceGuidanceManager.SetEnabled` does not model it;
  - the `stop` of the unmount cleanup (src/components/ARCanvas.jsx:1013).
- The label table of `mapLabel.js` (`labelMap`) is not part of this model. It is a parameter, in `Object.entries` order, which for integer-like keys differs from insertion order.
- Server.TableWellFormed, Server.TableKeys and Server.TableSetIds are proved for the concrete table only. The handler lemmas are stated for any table that meets them.

## Findings

| source | as written | input that shows it | evidently intended | confidence | as-written member | corrected member |
|---|---|---|---|---|---|---|
| backend/server.js:385 | `!mobileInstructions[problem]` also accepts names every object inherits; `.steps.map` on them then throws | `POST /api/phone-problem` with `problem: "constructor"` answers 500 | an unknown problem answers 400 with the available problems | not executed | Server.PhoneProblemAsWritten (Server.InheritedKeyAnswers) | Server.PhoneProblem (Server.PhoneProblemValidation) |
| src/services/api.js:368 | `predefined[itemType.toLowerCase()] \|\| null` also finds inherited members | `getPredefinedInstructions("Constructor")` returns the `Object` constructor, not null | only "tv" has a guide; every other item type gives null | not executed | ApiClient.GetPredefinedInstructionsAsWritten (ApiClient.PredefinedInheritedKey) | ApiClient.GetPredefinedInstructions |
