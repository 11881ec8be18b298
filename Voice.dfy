/**
 * Spoken guidance: the choice of a synthesis voice, the sentences spoken for a step,
 * an introduction, a completion, progress and a summary, and the manager object that
 * guards and tracks speech. The speech engine is outside the model: it is handed an
 * utterance, and its start and end callbacks are methods of the manager.
 */
module Voice {
  import opened JsText

  // ---------------------------------------------------------------------------
  // selectBestVoice

  datatype Voice = Voice(name: string, lang: string, localService: bool)

  const PriorityCount: nat := 8

  /** The eight tests of the priority list, most preferred first. */
  predicate Matches(p: nat, v: Voice)
    requires p < PriorityCount
  {
    if p == 0 then Contains(v.name, "Google") && StartsWith(v.lang, "en")
    else if p == 1 then Contains(v.name, "Microsoft") && StartsWith(v.lang, "en")
    else if p == 2 then Contains(v.name, "Alex") && StartsWith(v.lang, "en")
    else if p == 3 then Contains(v.name, "Samantha") && StartsWith(v.lang, "en")
    else if p == 4 then StartsWith(v.lang, "en-US") && v.localService
    else if p == 5 then StartsWith(v.lang, "en") && v.localService
    else if p == 6 then StartsWith(v.lang, "en-US")
    else StartsWith(v.lang, "en")
  }

  /** `voices.find(priority)`, as an index. */
  function FindVoice(voices: seq<Voice>, p: nat): (r: Option<nat>)
    requires p < PriorityCount
    ensures r.Some? ==> r.value < |voices| && Matches(p, voices[r.value])
    ensures r.Some? ==> forall j :: 0 <= j < r.value ==> !Matches(p, voices[j])
    ensures r.None? ==> forall j :: 0 <= j < |voices| ==> !Matches(p, voices[j])
    decreases |voices|
  {
    if voices == [] then None
    else if Matches(p, voices[0]) then Some(0)
    else
      var r := FindVoice(voices[1..], p);
      assert forall j :: 1 <= j < |voices| ==> voices[j] == voices[1..][j - 1];
      if r.Some? then Some(r.value + 1) else None
  }

  /** The choice from priority `p` on; `None` stands for `voices[0]` of an empty list. */
  function BestFrom(voices: seq<Voice>, p: nat): Option<Voice>
    requires p <= PriorityCount
    decreases PriorityCount - p
  {
    if p == PriorityCount then (if voices == [] then None else Some(voices[0]))
    else match FindVoice(voices, p)
      case Some(i) => Some(voices[i])
      case None => BestFrom(voices, p + 1)
  }

  function SelectBest(voices: seq<Voice>): Option<Voice>
  {
    BestFrom(voices, 0)
  }

  method SelectBestVoice(voices: seq<Voice>) returns (r: Option<Voice>)
    ensures r == SelectBest(voices)
  {
    for p := 0 to PriorityCount
      invariant BestFrom(voices, p) == SelectBest(voices)
    {
      var i := 0;
      while i < |voices|
        invariant 0 <= i <= |voices|
        invariant forall j :: 0 <= j < i ==> !Matches(p, voices[j])
      {
        if Matches(p, voices[i]) {
          assert FindVoice(voices, p) == Some(i);
          return Some(voices[i]);
        }
        i := i + 1;
      }
      assert FindVoice(voices, p) == None;
    }
    r := if |voices| > 0 then Some(voices[0]) else None;
  }

  /** The lowest-numbered test that some voice passes. */
  predicate IsBestPriority(voices: seq<Voice>, p: nat)
  {
    p < PriorityCount && FindVoice(voices, p).Some? && forall q :: 0 <= q < p ==> FindVoice(voices, q).None?
  }

  lemma {:induction false} BestFromFirst(voices: seq<Voice>, p: nat, q: nat)
    requires p <= q < PriorityCount && FindVoice(voices, q).Some?
    requires forall r :: p <= r < q ==> FindVoice(voices, r).None?
    ensures BestFrom(voices, p) == Some(voices[FindVoice(voices, q).value])
    decreases q - p
  {
    if p < q {
      BestFromFirst(voices, p + 1, q);
    }
  }

  lemma {:induction false} BestFromNone(voices: seq<Voice>, p: nat)
    requires p <= PriorityCount
    requires forall r :: p <= r < PriorityCount ==> FindVoice(voices, r).None?
    ensures BestFrom(voices, p) == (if voices == [] then None else Some(voices[0]))
    decreases PriorityCount - p
  {
    if p < PriorityCount {
      BestFromNone(voices, p + 1);
    }
  }

  /**
   * The choice is the first voice, in list order, that passes the most preferred test
   * any voice passes; when no voice passes any test it is the first voice.
   */
  lemma SelectBestByPriority(voices: seq<Voice>, p: nat)
    ensures IsBestPriority(voices, p) ==> SelectBest(voices) == Some(voices[FindVoice(voices, p).value])
    ensures (forall q :: 0 <= q < PriorityCount ==> FindVoice(voices, q).None?) ==>
      SelectBest(voices) == (if voices == [] then None else Some(voices[0]))
  {
    if IsBestPriority(voices, p) {
      BestFromFirst(voices, 0, p);
    }
    if forall q :: 0 <= q < PriorityCount ==> FindVoice(voices, q).None? {
      BestFromNone(voices, 0);
    }
  }

  lemma EnUsIsEn(lang: string)
    requires StartsWith(lang, "en-US")
    ensures StartsWith(lang, "en")
  {
    assert lang[..2] == lang[..5][..2];
  }

  /** Every test asks for an English voice. */
  lemma MatchesIsEnglish(p: nat, v: Voice)
    requires p < PriorityCount && Matches(p, v)
    ensures StartsWith(v.lang, "en")
  {
    if p == 4 || p == 6 {
      EnUsIsEn(v.lang);
    }
  }

  lemma {:induction false} BestFromEnglish(voices: seq<Voice>, p: nat)
    requires p < PriorityCount && FindVoice(voices, PriorityCount - 1).Some?
    ensures BestFrom(voices, p).Some? && StartsWith(BestFrom(voices, p).value.lang, "en")
    decreases PriorityCount - p
  {
    var f := FindVoice(voices, p);
    if f.Some? {
      MatchesIsEnglish(p, voices[f.value]);
    } else {
      BestFromEnglish(voices, p + 1);
    }
  }

  /** When some voice is English, the chosen one is English too. */
  lemma SelectBestEnglish(voices: seq<Voice>)
    requires exists i :: 0 <= i < |voices| && StartsWith(voices[i].lang, "en")
    ensures SelectBest(voices).Some? && StartsWith(SelectBest(voices).value.lang, "en")
  {
    var i :| 0 <= i < |voices| && StartsWith(voices[i].lang, "en");
    assert Matches(PriorityCount - 1, voices[i]);
    BestFromEnglish(voices, 0);
  }

  // ---------------------------------------------------------------------------
  // The spoken sentences

  /** The fields of a step that are read out; `None` stands for a missing or falsy field. */
  datatype StepInfo = StepInfo(title: string, description: Option<string>, voiceover: Option<string>)

  /** `value || ''` */
  function OrEmpty(s: Option<string>): (r: string)
    ensures Truthy(s) ==> r == s.value
    ensures !Truthy(s) ==> r == []
  {
    if Truthy(s) then s.value else []
  }

  /** The sentence of `speakStepInstruction`. */
  function StepInstructionText(step: StepInfo, stepNumber: int, totalSteps: int): string
  {
    "Step " + IntToString(stepNumber) + " of " + IntToString(totalSteps) + ". " + step.title + ". "
      + OrEmpty(step.description) + " " + OrEmpty(step.voiceover)
  }

  /**
   * For a step number n of a total t (both natural) the sentence starts with the decimal
   * digits of n and then of t, which read back as n and t, then the title.
   */
  lemma StepInstructionReadsBack(step: StepInfo, n: nat, t: nat)
    ensures var text := StepInstructionText(step, n, t);
      var prefix := "Step " + NatToString(n) + " of " + NatToString(t) + ". ";
      && StartsWith(text, prefix + step.title + ". ")
      && DecimalValue(NatToString(n)) == n && DecimalValue(NatToString(t)) == t
  {
    NatToStringValue(n);
    NatToStringValue(t);
    var head := "Step " + NatToString(n) + " of " + NatToString(t) + ". " + step.title + ". ";
    var rest := OrEmpty(step.description) + " " + OrEmpty(step.voiceover);
    assert StepInstructionText(step, n, t) == head + rest;
    StartsWithConcat(head, rest);
  }

  const BatteryDrainIntroduction: string :=
    "I'll help you fix your phone's battery drain issues with step-by-step AR guidance. We'll identify power-hungry apps and optimize your battery settings."
  const SlowPerformanceIntroduction: string :=
    "Let's improve your phone's performance with visual AR instructions. We'll clear cache, close background apps, and optimize your device speed."
  const OverheatingIntroduction: string :=
    "I'll guide you through cooling down your phone safely with AR assistance. We'll identify heat sources and prevent overheating."
  const WifiIssuesIntroduction: string :=
    "Let's troubleshoot your WiFi connection problems together using AR guidance. We'll reset network settings and restore connectivity."
  const StorageFullIntroduction: string :=
    "I'll help you free up storage space on your phone with visual AR guidance. We'll identify large files and clean up unnecessary data."
  const DefaultIntroduction: string :=
    "Let's start troubleshooting your phone issue with AR guidance."

  /**
   * `introductions[problemType] || default`. A key inherited from `Object.prototype`
   * yields a value that is not a string, which `speak` then refuses: `None`.
   */
  function Introduction(problemType: string): (r: Option<string>)
    ensures r.None? <==> problemType in InheritedMembers
  {
    if problemType == "battery_drain" then Some(BatteryDrainIntroduction)
    else if problemType == "slow_performance" then Some(SlowPerformanceIntroduction)
    else if problemType == "overheating" then Some(OverheatingIntroduction)
    else if problemType == "wifi_issues" then Some(WifiIssuesIntroduction)
    else if problemType == "storage_full" then Some(StorageFullIntroduction)
    else if problemType in InheritedMembers then None
    else Some(DefaultIntroduction)
  }

  /** Each of the five problem types has its own introduction. */
  lemma IntroductionOwnKeys(problemType: string)
    ensures problemType == "battery_drain" ==> Introduction(problemType) == Some(BatteryDrainIntroduction)
    ensures problemType == "slow_performance" ==> Introduction(problemType) == Some(SlowPerformanceIntroduction)
    ensures problemType == "overheating" ==> Introduction(problemType) == Some(OverheatingIntroduction)
    ensures problemType == "wifi_issues" ==> Introduction(problemType) == Some(WifiIssuesIntroduction)
    ensures problemType == "storage_full" ==> Introduction(problemType) == Some(StorageFullIntroduction)
  {
  }

  /** Every other key that is not inherited gets the default introduction. */
  lemma IntroductionDefault(problemType: string)
    requires !IsProblemKey(problemType) && problemType !in InheritedMembers
    ensures Introduction(problemType) == Some(DefaultIntroduction)
  {
  }

  const BatteryDrainCompletion: string :=
    "Excellent work! You've completed all battery optimization steps. Your phone should now have significantly better battery life. The changes you made will help your device run more efficiently."
  const SlowPerformanceCompletion: string :=
    "Outstanding! Your phone's performance should now be greatly improved. The cache clearing and app updates will make your device run much faster and smoother."
  const OverheatingCompletion: string :=
    "Perfect! These cooling steps should prevent your phone from overheating in the future. Monitor the temperature over the next few hours to see the improvement."
  const WifiIssuesCompletion: string :=
    "Wonderful! Your WiFi connectivity should now be fully restored. Try connecting to your network again to test the improved connection."
  const StorageFullCompletion: string :=
    "Fantastic! You've successfully freed up valuable storage space. Your phone should now run more smoothly with the additional available memory."
  const DefaultCompletion: string :=
    "Congratulations! You've successfully completed all troubleshooting steps."
  const CompletionSuffix: string :=
    " Your phone should be working much better now. Would you like to try fixing another issue or repeat these steps?"

  /** The five problem types that have their own introduction and completion message. */
  predicate IsProblemKey(problemType: string)
  {
    problemType in ["battery_drain", "slow_performance", "overheating", "wifi_issues", "storage_full"]
  }

  /** The own properties of `completionMessages`. */
  function OwnCompletion(problemType: string): (r: Option<string>)
    ensures r.Some? <==> IsProblemKey(problemType)
  {
    if problemType == "battery_drain" then Some(BatteryDrainCompletion)
    else if problemType == "slow_performance" then Some(SlowPerformanceCompletion)
    else if problemType == "overheating" then Some(OverheatingCompletion)
    else if problemType == "wifi_issues" then Some(WifiIssuesCompletion)
    else if problemType == "storage_full" then Some(StorageFullCompletion)
    else None
  }

  /**
   * `completionMessages[problemType] || default`. The key is not lower-cased; an own
   * property gives its message, and a key inherited from `Object.prototype` finds a
   * truthy value that is concatenated as it prints.
   */
  function CompletionMessage(problemType: string): string
  {
    match OwnCompletion(problemType)
    case Some(m) => m
    case None => if problemType in InheritedMembers then InheritedString(problemType) else DefaultCompletion
  }

  /** The sentence of `speakCompletionMessage`: the message for the key, then the fixed suffix. */
  function CompletionText(problemType: string): (r: string)
    ensures |r| > |CompletionSuffix| && r[|r| - |CompletionSuffix|..] == CompletionSuffix
    ensures r[..|r| - |CompletionSuffix|] == CompletionMessage(problemType)
  {
    var m := CompletionMessage(problemType);
    assert (m + CompletionSuffix)[|m|..] == CompletionSuffix;
    assert (m + CompletionSuffix)[..|m|] == m;
    m + CompletionSuffix
  }

  /** Each of the five problem types has its own message. */
  lemma CompletionOwnKeys(problemType: string)
    ensures problemType == "battery_drain" ==> CompletionMessage(problemType) == BatteryDrainCompletion
    ensures problemType == "slow_performance" ==> CompletionMessage(problemType) == SlowPerformanceCompletion
    ensures problemType == "overheating" ==> CompletionMessage(problemType) == OverheatingCompletion
    ensures problemType == "wifi_issues" ==> CompletionMessage(problemType) == WifiIssuesCompletion
    ensures problemType == "storage_full" ==> CompletionMessage(problemType) == StorageFullCompletion
  {
  }

  /** No inherited name starts like one of the five problem types. */
  lemma InheritedHead(name: string)
    requires name in InheritedMembers
    ensures |name| > 0 && name[0] in "c_tvhip"
  {
  }

  /** A name every object inherits gives what that member prints as. */
  lemma CompletionInherited(problemType: string)
    requires problemType in InheritedMembers
    ensures CompletionMessage(problemType) == InheritedString(problemType)
  {
    InheritedHead(problemType);
  }

  /** Every other key gets the congratulation. */
  lemma CompletionDefault(problemType: string)
    requires !IsProblemKey(problemType) && problemType !in InheritedMembers
    ensures CompletionMessage(problemType) == DefaultCompletion
  {
  }

  /** For `constructor` the completion sentence opens with the source text of `Object`. */
  lemma CompletionForConstructor()
    ensures CompletionMessage("constructor") == "function Object() { [native code] }"
  {
    InheritedHead("constructor");
  }

  /** Only the exact spelling selects a message: an upper-case problem type gets the congratulation. */
  lemma CompletionIsCaseSensitive()
    ensures CompletionMessage("Battery_drain") == DefaultCompletion
  {
    assert "Battery_drain"[0] == 'B';
    assert !IsProblemKey("Battery_drain");
    assert "Battery_drain" !in InheritedMembers;
  }

  /** The sentence of `speakStepProgress`. */
  function StepProgressText(currentStep: int, totalSteps: int, isCompleted: bool): string
  {
    if isCompleted then
      "All " + IntToString(totalSteps) + " steps have been completed successfully! Your phone troubleshooting is now finished."
    else
      "You are currently on step " + IntToString(currentStep + 1) + " of " + IntToString(totalSteps) + ". "
        + IntToString(totalSteps - currentStep - 1) + " steps remaining."
  }

  /**
   * On a step inside the sequence the sentence reports the one-based step number and a
   * remaining count that is never negative, the two adding up to the total.
   */
  lemma StepProgressCounts(currentStep: int, totalSteps: int)
    requires 0 <= currentStep < totalSteps
    ensures var shown: nat := currentStep + 1;
      var left: nat := totalSteps - currentStep - 1;
      && StepProgressText(currentStep, totalSteps, false) ==
           "You are currently on step " + NatToString(shown) + " of " + NatToString(totalSteps) + ". "
           + NatToString(left) + " steps remaining."
      && DecimalValue(NatToString(shown)) + DecimalValue(NatToString(left)) == totalSteps
  {
    NatToStringValue(currentStep + 1);
    NatToStringValue(totalSteps - currentStep - 1);
  }

  /** One `Step k: title` per step, numbered from 1. */
  function StepLabels(titles: seq<string>): (labels: seq<string>)
    ensures |labels| == |titles|
    ensures forall k :: 0 <= k < |titles| ==> labels[k] == "Step " + IntToString(k + 1) + ": " + titles[k]
  {
    if titles == [] then []
    else StepLabels(titles[..|titles| - 1]) + ["Step " + IntToString(|titles|) + ": " + titles[|titles| - 1]]
  }

  const RepeatOutro: string := ". Would you like me to guide you through these steps again with AR assistance?"

  /** The sentence of `speakRepeatInstructions`; only the first `_` of the problem type becomes a space. */
  function RepeatInstructionsText(problemType: string, titles: seq<string>): string
  {
    "Here's a summary of all steps for " + ReplaceFirst(problemType, '_', ' ') + " troubleshooting: "
      + Join(StepLabels(titles), ". ") + RepeatOutro
  }

  /** One more step adds `. Step n: title` to the summary. */
  lemma StepSummarySnoc(titles: seq<string>, title: string)
    ensures Join(StepLabels(titles + [title]), ". ") ==
      (var item := "Step " + IntToString(|titles| + 1) + ": " + title;
       if titles == [] then item else Join(StepLabels(titles), ". ") + ". " + item)
  {
    assert (titles + [title])[..|titles|] == titles;
    JoinSnoc(StepLabels(titles), "Step " + IntToString(|titles| + 1) + ": " + title, ". ");
  }

  /** In a problem type with two `_`, the second stays. */
  lemma RepeatReplacesFirstUnderscore(a: string, b: string, c: string)
    requires forall i :: 0 <= i < |a| ==> a[i] != '_'
    ensures ReplaceFirst(a + "_" + b + "_" + c, '_', ' ') == a + " " + (b + "_" + c)
  {
    assert a + "_" + b + "_" + c == a + ['_'] + (b + "_" + c);
    ReplaceFirstSplits(a, b + "_" + c, '_', ' ');
  }

  // ---------------------------------------------------------------------------
  // The manager

  /** What is handed to the speech engine: the text and the voice chosen for it. */
  datatype Utterance = Utterance(text: string, voice: Option<Voice>)

  const EnabledAnnouncement: string := "Voice guidance is now enabled"

  class VoiceGuidanceManager {
    var isEnabled: bool
    var isSpeaking: bool
    var currentUtterance: Option<Utterance>

    constructor()
      ensures isEnabled && !isSpeaking && currentUtterance == None
    {
      isEnabled := true;
      isSpeaking := false;
      currentUtterance := None;
    }

    /** `stop()`: whatever was playing, nothing is current afterwards. */
    method Stop()
      modifies this
      ensures !isSpeaking && currentUtterance == None && isEnabled == old(isEnabled)
    {
      currentUtterance := None;
      isSpeaking := false;
    }

    /**
     * `speak(text, { interrupt })`: nothing happens unless voice is enabled and the text
     * is a non-empty string (`None` is any value that is not one). Otherwise the current
     * speech is stopped unless `interrupt` is false, and the text becomes the current
     * utterance, in the voice `selectBestVoice` picks from `voices`.
     */
    method Speak(text: Option<string>, interrupt: bool, voices: seq<Voice>) returns (spoken: Option<Utterance>)
      modifies this
      ensures !old(isEnabled) || !Truthy(text) ==>
        spoken == None && isSpeaking == old(isSpeaking) && currentUtterance == old(currentUtterance)
      ensures old(isEnabled) && Truthy(text) ==>
        && spoken == Some(Utterance(text.value, SelectBest(voices)))
        && currentUtterance == spoken
        && isSpeaking == (old(isSpeaking) && !interrupt)
      ensures isEnabled == old(isEnabled)
    {
      if !isEnabled || !Truthy(text) {
        return None;
      }
      if interrupt {
        Stop();
      }
      var preferredVoice := SelectBestVoice(voices);
      var utterance := Utterance(text.value, preferredVoice);
      currentUtterance := Some(utterance);
      spoken := Some(utterance);
    }

    /** The engine's `onstart` callback. */
    method SpeechStarted()
      modifies this
      ensures isSpeaking && currentUtterance == old(currentUtterance) && isEnabled == old(isEnabled)
    {
      isSpeaking := true;
    }

    /** The engine's `onend` and `onerror` callbacks. */
    method SpeechEnded()
      modifies this
      ensures !isSpeaking && currentUtterance == None && isEnabled == old(isEnabled)
    {
      isSpeaking := false;
      currentUtterance := None;
    }

    /** `setEnabled(enabled)`: disabling stops speech; enabling announces it. */
    method SetEnabled(enabled: bool, voices: seq<Voice>) returns (spoken: Option<Utterance>)
      modifies this
      ensures isEnabled == enabled
      ensures !enabled ==> spoken == None && !isSpeaking && currentUtterance == None
      ensures enabled ==>
        spoken == Some(Utterance(EnabledAnnouncement, SelectBest(voices))) && currentUtterance == spoken && !isSpeaking
    {
      isEnabled := enabled;
      if !enabled {
        Stop();
        spoken := None;
      } else {
        spoken := Speak(Some(EnabledAnnouncement), true, voices);
      }
    }

    /**
     * `speakStepInstruction(step, stepNumber, totalSteps)`: silent for a missing step or
     * while disabled; otherwise the step sentence interrupts whatever was playing.
     */
    method SpeakStepInstruction(step: Option<StepInfo>, stepNumber: int, totalSteps: int, voices: seq<Voice>)
      returns (spoken: Option<Utterance>)
      modifies this
      ensures step.None? || !isEnabled ==>
        spoken == None && isSpeaking == old(isSpeaking) && currentUtterance == old(currentUtterance)
      ensures step.Some? && isEnabled ==>
        && spoken == Some(Utterance(StepInstructionText(step.value, stepNumber, totalSteps), SelectBest(voices)))
        && currentUtterance == spoken && !isSpeaking
      ensures isEnabled == old(isEnabled)
    {
      if step.None? {
        return None;
      }
      spoken := Speak(Some(StepInstructionText(step.value, stepNumber, totalSteps)), true, voices);
    }

    /** `speakProblemIntroduction(problemType)`: an inherited name looks up a value `speak` refuses. */
    method SpeakProblemIntroduction(problemType: string, voices: seq<Voice>) returns (spoken: Option<Utterance>)
      modifies this
      ensures problemType in InheritedMembers || !isEnabled ==>
        spoken == None && isSpeaking == old(isSpeaking) && currentUtterance == old(currentUtterance)
      ensures problemType !in InheritedMembers && isEnabled ==>
        && spoken == Some(Utterance(Introduction(problemType).value, SelectBest(voices)))
        && currentUtterance == spoken && !isSpeaking
      ensures isEnabled == old(isEnabled)
    {
      spoken := Speak(Introduction(problemType), true, voices);
    }

    /** `speakCompletionMessage(problemType)` */
    method SpeakCompletionMessage(problemType: string, voices: seq<Voice>) returns (spoken: Option<Utterance>)
      modifies this
      ensures isEnabled ==>
        && spoken == Some(Utterance(CompletionText(problemType), SelectBest(voices)))
        && currentUtterance == spoken && !isSpeaking
      ensures !isEnabled ==>
        spoken == None && isSpeaking == old(isSpeaking) && currentUtterance == old(currentUtterance)
      ensures isEnabled == old(isEnabled)
    {
      spoken := Speak(Some(CompletionText(problemType)), true, voices);
    }

    /** `speakStepProgress(currentStep, totalSteps, isCompleted)` */
    method SpeakStepProgress(currentStep: int, totalSteps: int, isCompleted: bool, voices: seq<Voice>)
      returns (spoken: Option<Utterance>)
      modifies this
      ensures isEnabled ==>
        && spoken == Some(Utterance(StepProgressText(currentStep, totalSteps, isCompleted), SelectBest(voices)))
        && currentUtterance == spoken && !isSpeaking
      ensures !isEnabled ==>
        spoken == None && isSpeaking == old(isSpeaking) && currentUtterance == old(currentUtterance)
      ensures isEnabled == old(isEnabled)
    {
      var text := StepProgressText(currentStep, totalSteps, isCompleted);
      spoken := Speak(Some(text), true, voices);
    }

    /** `speakRepeatInstructions(problemType, steps)` */
    method SpeakRepeatInstructions(problemType: string, titles: seq<string>, voices: seq<Voice>)
      returns (spoken: Option<Utterance>)
      modifies this
      ensures isEnabled ==>
        && spoken == Some(Utterance(RepeatInstructionsText(problemType, titles), SelectBest(voices)))
        && currentUtterance == spoken && !isSpeaking
      ensures !isEnabled ==>
        spoken == None && isSpeaking == old(isSpeaking) && currentUtterance == old(currentUtterance)
      ensures isEnabled == old(isEnabled)
    {
      spoken := Speak(Some(RepeatInstructionsText(problemType, titles)), true, voices);
    }
  }
}
