/**
 * The decision logic of the troubleshooting backend: the static table of phone
 * instruction sets, the confidence-based phone classifier, and the bodies of the
 * four request handlers written as functions from the request's fields to a
 * status code and a response body.
 *
 * A request field that is absent, `null` or otherwise falsy is `None` (or, for a
 * string, the empty string). Confidences are integer hundredths: the classifier
 * compares them, and the recognition body reports them in hundredths (95 where the
 * source sends 0.95). The static feature-flag objects that every
 * response carries (`ar_capabilities`, `ar_features`, `enhanced_features`) and the
 * `timestamp` are not part of the bodies.
 */
module Server {
  import opened JsText

  // ---------------------------------------------------------------------------
  // The instruction table

  /** The `ar_metadata` a step carries in a response. */
  datatype ArMetadata =
    /** On the problem-selector step: `enhanced_voiceover: true`. */
    | SelectorMetadata(componentTarget: string, arEffects: seq<string>)
    /** Added by `/api/phone-problem`: `position_optimized: true`. */
    | StepMetadata(componentTarget: string, arEffects: seq<string>, enhancedVoiceover: string)

  /** One instruction step; `problemSelection` and `arMetadata` are absent from the stored table. */
  datatype InstructionStep = InstructionStep(
    step: int,
    title: string,
    description: string,
    asset: string,
    voiceover: string,
    highlight: string,
    position: seq<real>,
    componentTarget: Option<string>,
    arEffects: Option<seq<string>>,
    duration: int,
    problemSelection: bool,
    arMetadata: Option<ArMetadata>)

  datatype InstructionSet = InstructionSet(
    deviceModel: string,
    deviceType: string,
    instructionSetId: string,
    arEnhanced: bool,
    steps: seq<InstructionStep>)

  /** One own property of `mobileInstructions`, in declaration (and so `Object.keys`) order. */
  datatype Entry = Entry(key: string, instructions: InstructionSet)

  function Stored(n: int, title: string, description: string, asset: string, voiceover: string,
                  highlight: string, position: seq<real>, target: string, effects: seq<string>,
                  duration: int): InstructionStep
  {
    InstructionStep(n, title, description, asset, voiceover, highlight, position,
                    Some(target), Some(effects), duration, false, None)
  }

  function PhoneSet(model: string, id: string, steps: seq<InstructionStep>): InstructionSet
  {
    InstructionSet(model, "mobile_phone", id, true, steps)
  }

  // The spoken text of each stored step.
  const BatteryDrainVoiceover1 := "First, let's check which apps are using the most battery. Go to Settings, then Battery. Look for the Settings app icon on your phone screen."
  const BatteryDrainVoiceover2 := "Now swipe up from the bottom of your phone screen to see all open apps, then swipe up on each app to close it. This will stop apps from draining battery in the background."
  const BatteryDrainVoiceover3 := "Go back to Battery settings and turn on Battery Saver or Low Power Mode. This will optimize your phone's performance to save battery."
  const SlowPerformanceVoiceover1 := "First, let's restart your phone to clear the memory and improve performance. Hold the power button on the side of your phone and select restart."
  const SlowPerformanceVoiceover2 := "Now go to Settings, then Storage, and tap Clear Cache to free up memory. This will remove temporary files that may be slowing down your phone."
  const SlowPerformanceVoiceover3 := "Finally, open your app store and update any apps that have pending updates. Updated apps often run faster and more efficiently."
  const OverheatingVoiceover1 := "First, remove your phone case to help it cool down faster. The case can trap heat and prevent proper ventilation."
  const OverheatingVoiceover2 := "Close any games, camera, or video apps that might be causing the overheating. These apps use intensive processing power which generates heat."
  const OverheatingVoiceover3 := "Place your phone in a cool area and let it rest for 10 to 15 minutes. Avoid direct sunlight and keep it away from heat sources."
  const WifiIssuesVoiceover1 := "First, turn off WiFi, wait 10 seconds, then turn it back on. This simple reset can resolve many connection issues."
  const WifiIssuesVoiceover2 := "Now forget the WiFi network and reconnect by entering the password again. This clears any corrupted connection data."
  const WifiIssuesVoiceover3 := "If WiFi still doesn't work, go to Settings and reset network settings. This will restore all network configurations to default."
  const StorageFullVoiceover1 := "Let's check what's using your storage. Go to Settings, then Storage to see a breakdown of what's taking up space on your phone."
  const StorageFullVoiceover2 := "Delete old photos and videos, or backup them to cloud storage like Google Photos or iCloud. Photos and videos often take up the most space."
  const StorageFullVoiceover3 := "Go to app settings and clear cache and data from large apps you don't use often. This will free up significant storage space."

  function BatteryDrainSet(): InstructionSet
  {
    PhoneSet("Mobile_Phone_Battery_Fix", "phone-battery-001", [
      Stored(1, "Check Battery Usage", "Go to Settings > Battery to see which apps are draining battery",
             "phone_settings.glb",
             BatteryDrainVoiceover1,
             "SettingsIcon", [0.0, 0.05, 0.01], "settings",
             ["highlight_component", "floating_arrow", "progress_ring"], 10000),
      Stored(2, "Close Background Apps", "Swipe up and close apps running in background",
             "phone_multitask.glb",
             BatteryDrainVoiceover2,
             "HomeButton", [0.0, -0.13, 0.01], "home_button",
             ["highlight_component", "swipe_animation", "particle_trail"], 12000),
      Stored(3, "Enable Battery Saver", "Turn on battery saver mode in Settings",
             "phone_battery_saver.glb",
             BatteryDrainVoiceover3,
             "BatterySaver", [0.0, 0.05, 0.01], "battery",
             ["highlight_component", "success_celebration"], 8000)])
  }

  function SlowPerformanceSet(): InstructionSet
  {
    PhoneSet("Mobile_Phone_Speed_Fix", "phone-speed-001", [
      Stored(1, "Restart Your Phone", "Hold power button and restart to clear memory",
             "phone_restart.glb",
             SlowPerformanceVoiceover1,
             "PowerButton", [0.084, 0.05, 0.0], "power_button",
             ["highlight_component", "pulsing_highlight", "instruction_text"], 12000),
      Stored(2, "Clear Cache", "Go to Settings > Storage > Clear Cache",
             "phone_storage.glb",
             SlowPerformanceVoiceover2,
             "StorageSettings", [0.0, 0.05, 0.01], "storage",
             ["highlight_component", "floating_arrow", "progress_indicator"], 15000),
      Stored(3, "Update Apps", "Check app store for pending updates",
             "phone_updates.glb",
             SlowPerformanceVoiceover3,
             "AppStore", [0.0, -0.1, 0.01], "apps",
             ["highlight_component", "update_animation", "completion_burst"], 10000)])
  }

  function OverheatingSet(): InstructionSet
  {
    PhoneSet("Mobile_Phone_Cooling_Fix", "phone-heat-001", [
      Stored(1, "Remove Phone Case", "Take off any protective case to allow cooling",
             "phone_case.glb",
             OverheatingVoiceover1,
             "PhoneCase", [0.0, 0.0, -0.01], "case",
             ["highlight_component", "cooling_animation", "temperature_indicator"], 8000),
      Stored(2, "Close Heavy Apps", "Close games, camera, or video apps that use lots of processing",
             "phone_apps.glb",
             OverheatingVoiceover2,
             "AppIcons", [0.0, -0.1, 0.01], "apps",
             ["highlight_component", "heat_visualization", "app_closing_animation"], 12000),
      Stored(3, "Cool Down Period", "Let phone rest in cool area for 10-15 minutes",
             "phone_cooling.glb",
             OverheatingVoiceover3,
             "CoolingArea", [0.0, 0.0, 0.0], "cooling",
             ["highlight_component", "cooling_effects", "timer_visualization"], 10000)])
  }

  function WifiIssuesSet(): InstructionSet
  {
    PhoneSet("Mobile_Phone_WiFi_Fix", "phone-wifi-001", [
      Stored(1, "Toggle WiFi Off/On", "Turn WiFi off, wait 10 seconds, then turn back on",
             "phone_wifi.glb",
             WifiIssuesVoiceover1,
             "WiFiToggle", [0.0, 0.15, 0.01], "wifi",
             ["highlight_component", "wifi_signal_animation", "toggle_visualization"], 15000),
      Stored(2, "Forget and Reconnect", "Forget the WiFi network and reconnect with password",
             "phone_wifi_forget.glb",
             WifiIssuesVoiceover2,
             "WiFiSettings", [0.0, 0.05, 0.01], "wifi_settings",
             ["highlight_component", "connection_visualization", "password_prompt"], 18000),
      Stored(3, "Reset Network Settings", "If still not working, reset all network settings",
             "phone_network_reset.glb",
             WifiIssuesVoiceover3,
             "NetworkReset", [0.0, 0.05, 0.01], "network_settings",
             ["highlight_component", "reset_animation", "success_confirmation"], 15000)])
  }

  function StorageFullSet(): InstructionSet
  {
    PhoneSet("Mobile_Phone_Storage_Fix", "phone-storage-001", [
      Stored(1, "Check Storage Usage", "Go to Settings > Storage to see what's using space",
             "phone_storage_check.glb",
             StorageFullVoiceover1,
             "StorageMenu", [0.0, 0.05, 0.01], "storage",
             ["highlight_component", "storage_visualization", "usage_chart"], 12000),
      Stored(2, "Delete Photos/Videos", "Remove old photos and videos, or backup to cloud",
             "phone_photos.glb",
             StorageFullVoiceover2,
             "PhotosApp", [0.0, -0.1, 0.01], "photos",
             ["highlight_component", "photo_cleanup_animation", "cloud_backup_visual"], 15000),
      Stored(3, "Clear App Data", "Clear cache and data from large apps",
             "phone_app_data.glb",
             StorageFullVoiceover3,
             "AppData", [0.0, -0.1, 0.01], "app_storage",
             ["highlight_component", "cache_clearing_animation", "storage_freed_celebration"], 12000)])
  }

  /** `mobileInstructions` */
  function MobileInstructions(): seq<Entry>
  {
    [ Entry("battery_drain", BatteryDrainSet()),
      Entry("slow_performance", SlowPerformanceSet()),
      Entry("overheating", OverheatingSet()),
      Entry("wifi_issues", WifiIssuesSet()),
      Entry("storage_full", StorageFullSet()) ]
  }

  /** `Object.keys(table)` */
  function Keys(table: seq<Entry>): (ks: seq<string>)
    ensures |ks| == |table| && forall i :: 0 <= i < |table| ==> ks[i] == table[i].key
  {
    if table == [] then [] else [table[0].key] + Keys(table[1..])
  }

  /** The instruction set ids of the table, in key order. */
  function SetIds(table: seq<Entry>): (ids: seq<string>)
    ensures |ids| == |table| && forall i :: 0 <= i < |table| ==> ids[i] == table[i].instructions.instructionSetId
  {
    if table == [] then [] else [table[0].instructions.instructionSetId] + SetIds(table[1..])
  }

  /** `table[key]` restricted to own properties. */
  function Lookup(table: seq<Entry>, key: string): (r: Option<InstructionSet>)
    ensures r.Some? <==> key in Keys(table)
    ensures r.Some? ==> exists i :: 0 <= i < |table| && table[i] == Entry(key, r.value)
  {
    if table == [] then None
    else if table[0].key == key then Some(table[0].instructions)
    else Lookup(table[1..], key)
  }

  /** `Object.keys(table).find(key => table[key].instruction_set_id === id)` */
  function FindById(table: seq<Entry>, id: string): (r: Option<nat>)
    ensures r.Some? ==> r.value < |table| && table[r.value].instructions.instructionSetId == id
    ensures r.Some? ==> forall j :: 0 <= j < r.value ==> table[j].instructions.instructionSetId != id
    ensures r.None? <==> id !in SetIds(table)
  {
    if table == [] then None
    else if table[0].instructions.instructionSetId == id then Some(0)
    else
      var r := FindById(table[1..], id);
      if r.Some? then Some(r.value + 1) else None
  }

  /** `steps.reduce((sum, step) => sum + step.duration, 0)` */
  function SumDurations(steps: seq<InstructionStep>): int
  {
    if steps == [] then 0 else SumDurations(steps[..|steps| - 1]) + steps[|steps| - 1].duration
  }

  lemma {:induction false} SumDurationsPositive(steps: seq<InstructionStep>)
    requires forall j :: 0 <= j < |steps| ==> steps[j].duration > 0
    ensures SumDurations(steps) >= |steps|
  {
    if steps != [] {
      SumDurationsPositive(steps[..|steps| - 1]);
    }
  }

  lemma SumOfThree(steps: seq<InstructionStep>)
    requires |steps| == 3
    ensures SumDurations(steps) == steps[0].duration + steps[1].duration + steps[2].duration
  {
    assert SumDurations(steps) == SumDurations(steps[..2]) + steps[2].duration;
    assert steps[..2][..1] == steps[..1];
    assert SumDurations(steps[..2]) == SumDurations(steps[..1]) + steps[1].duration;
    assert steps[..1][..0] == [];
    assert SumDurations(steps[..1]) == steps[0].duration;
  }

  /** Each stored set has three steps numbered 1, 2, 3 in order, all with a positive duration. */
  predicate WellFormedSet(s: InstructionSet)
  {
    && |s.steps| == 3
    && (forall j :: 0 <= j < |s.steps| ==> s.steps[j].step == j + 1)
    && (forall j :: 0 <= j < |s.steps| ==> s.steps[j].duration > 0)
    && (forall j :: 0 <= j < |s.steps| ==> s.steps[j].componentTarget.Some? && s.steps[j].arEffects.Some?)
  }

  lemma BatteryDrainWellFormed()
    ensures WellFormedSet(BatteryDrainSet()) && SumDurations(BatteryDrainSet().steps) == 30000
  {
    SumOfThree(BatteryDrainSet().steps);
  }

  lemma SlowPerformanceWellFormed()
    ensures WellFormedSet(SlowPerformanceSet()) && SumDurations(SlowPerformanceSet().steps) == 37000
  {
    SumOfThree(SlowPerformanceSet().steps);
  }

  lemma OverheatingWellFormed()
    ensures WellFormedSet(OverheatingSet()) && SumDurations(OverheatingSet().steps) == 30000
  {
    SumOfThree(OverheatingSet().steps);
  }

  lemma WifiIssuesWellFormed()
    ensures WellFormedSet(WifiIssuesSet()) && SumDurations(WifiIssuesSet().steps) == 48000
  {
    SumOfThree(WifiIssuesSet().steps);
  }

  lemma StorageFullWellFormed()
    ensures WellFormedSet(StorageFullSet()) && SumDurations(StorageFullSet().steps) == 39000
  {
    SumOfThree(StorageFullSet().steps);
  }

  /** The five problems, in key order. */
  lemma TableKeys()
    ensures Keys(MobileInstructions()) == ["battery_drain", "slow_performance", "overheating", "wifi_issues", "storage_full"]
  {
    var ks := Keys(MobileInstructions());
    assert ks[0] == "battery_drain" && ks[1] == "slow_performance" && ks[2] == "overheating";
    assert ks[3] == "wifi_issues" && ks[4] == "storage_full";
  }

  /** Each set has its own id. */
  lemma TableSetIds()
    ensures SetIds(MobileInstructions()) == ["phone-battery-001", "phone-speed-001", "phone-heat-001", "phone-wifi-001", "phone-storage-001"]
  {
    var ids := SetIds(MobileInstructions());
    assert ids[0] == "phone-battery-001" && ids[1] == "phone-speed-001" && ids[2] == "phone-heat-001";
    assert ids[3] == "phone-wifi-001" && ids[4] == "phone-storage-001";
  }

  lemma TableWellFormed()
    ensures forall i :: 0 <= i < |MobileInstructions()| ==> WellFormedSet(MobileInstructions()[i].instructions)
  {
    BatteryDrainWellFormed();
    SlowPerformanceWellFormed();
    OverheatingWellFormed();
    WifiIssuesWellFormed();
    StorageFullWellFormed();
  }

  // ---------------------------------------------------------------------------
  // classifyDevice

  /**
   * `phoneMappings[label]` in hundredths, 0 where the lookup is not a positive number.
   * A name inherited from `Object.prototype` looks up a function or an object, which
   * compares as NaN and so is never chosen: it counts as 0 here too.
   */
  function PhoneConfidence(name: string): (c: int)
    ensures 0 <= c <= 95
    ensures name in InheritedMembers ==> c == 0
  {
    if name == "cell phone" then 95
    else if name == "phone" then 90
    else if name == "smartphone" then 95
    else if name == "mobile phone" then 95
    else if name == "iphone" then 90
    else if name == "android" then 85
    else if name == "mobile" then 80
    else 0
  }

  /** The confidence of one detected object, looked up by its lower-cased label. */
  function Confidence(obj: string): int
  {
    PhoneConfidence(ToLower(obj))
  }

  function Confidences(objects: seq<string>): (cs: seq<int>)
    ensures |cs| == |objects| && forall j :: 0 <= j < |objects| ==> cs[j] == Confidence(objects[j])
  {
    if objects == [] then [] else [Confidence(objects[0])] + Confidences(objects[1..])
  }

  /**
   * The index the loop of `classifyDevice` settles on, over the objects' confidences:
   * the first one that is positive and strictly above every earlier one, i.e. the
   * earliest maximum.
   */
  function BestIndex(cs: seq<int>): (r: Option<nat>)
    ensures r.Some? ==> r.value < |cs| && cs[r.value] > 0
    ensures r.Some? ==> forall j :: 0 <= j < |cs| ==> cs[j] <= cs[r.value]
    ensures r.Some? ==> forall j :: 0 <= j < r.value ==> cs[j] < cs[r.value]
    ensures r.None? <==> forall j :: 0 <= j < |cs| ==> cs[j] <= 0
  {
    if cs == [] then None
    else
      var init := cs[..|cs| - 1];
      var prev := BestIndex(init);
      var highest := if prev.Some? then init[prev.value] else 0;
      if cs[|cs| - 1] > 0 && cs[|cs| - 1] > highest then Some(|cs| - 1) else prev
  }

  /** One more object: it takes over when it is positive and beats the best so far. */
  lemma BestIndexStep(cs: seq<int>, i: nat)
    requires i < |cs|
    ensures BestIndex(cs[..i + 1]) ==
      (var prev := BestIndex(cs[..i]);
       var highest := if prev.Some? then cs[prev.value] else 0;
       if cs[i] > 0 && cs[i] > highest then Some(i) else prev)
  {
    assert cs[..i + 1][..i] == cs[..i];
  }

  /** The classifier's result: `{ type: 'mobile_phone', confidence, detectedAs }`. */
  datatype Classification = Classification(deviceType: string, confidence: int, detectedAs: string)

  /** `classifyDevice(objects)`, None for `null`. */
  function Classify(objects: seq<string>): Option<Classification>
  {
    match BestIndex(Confidences(objects))
    case None => None
    case Some(i) => Some(Classification("mobile_phone", Confidence(objects[i]), objects[i]))
  }

  /** `phoneMappings[obj.toLowerCase()]` */
  method LookUpConfidence(obj: string) returns (c: int)
    ensures c == Confidence(obj)
  {
    c := PhoneConfidence(ToLower(obj));
  }

  /** The loop of `classifyDevice`, keeping the best match and its confidence. */
  method ClassifyDevice(objects: seq<string>) returns (r: Option<Classification>)
    ensures r == Classify(objects)
  {
    var bestMatch: Option<string> := None;
    var highestConfidence := 0;
    ghost var cs := Confidences(objects);
    ghost var bestIndex: Option<nat> := None;
    for i := 0 to |objects|
      invariant bestIndex == BestIndex(cs[..i])
      invariant bestIndex.None? ==> bestMatch.None? && highestConfidence == 0
      invariant bestIndex.Some? ==> bestIndex.value < i && bestMatch == Some(objects[bestIndex.value])
                                    && highestConfidence == cs[bestIndex.value]
    {
      BestIndexStep(cs, i);
      var confidence := LookUpConfidence(objects[i]);
      if confidence > 0 && confidence > highestConfidence {
        highestConfidence := confidence;
        bestMatch := Some(objects[i]);
        bestIndex := Some(i);
      }
    }
    assert cs[..|objects|] == cs;
    if bestMatch.Some? {
      r := Some(Classification("mobile_phone", highestConfidence, bestMatch.value));
    } else {
      r := None;
    }
  }

  /**
   * The earliest-maximum rule pins the choice down: an index whose confidence is
   * positive, highest, and above every earlier one is the one chosen.
   */
  lemma BestIndexUnique(cs: seq<int>, i: nat)
    requires i < |cs| && cs[i] > 0
    requires forall j :: 0 <= j < |cs| ==> cs[j] <= cs[i]
    requires forall j :: 0 <= j < i ==> cs[j] < cs[i]
    ensures BestIndex(cs) == Some(i)
  {
    var r := BestIndex(cs);
    assert r.Some?;
    assert cs[r.value] == cs[i];
  }

  /** Object `i` has the highest positive confidence, and beats every object before it. */
  predicate EarliestMax(objects: seq<string>, i: int)
  {
    && 0 <= i < |objects| && Confidence(objects[i]) > 0
    && (forall j :: 0 <= j < |objects| ==> Confidence(objects[j]) <= Confidence(objects[i]))
    && (forall j :: 0 <= j < i ==> Confidence(objects[j]) < Confidence(objects[i]))
  }

  /** The result of `classifyDevice` read through the objects themselves. */
  lemma ClassifyChoice(objects: seq<string>)
    ensures Classify(objects).None? <==> forall j :: 0 <= j < |objects| ==> Confidence(objects[j]) == 0
    ensures forall i :: EarliestMax(objects, i) ==>
      Classify(objects) == Some(Classification("mobile_phone", Confidence(objects[i]), objects[i]))
    ensures Classify(objects).Some? ==> exists i :: EarliestMax(objects, i)
  {
    var cs := Confidences(objects);
    assert forall j :: 0 <= j < |objects| ==> Confidence(objects[j]) >= 0;
    forall i | EarliestMax(objects, i)
      ensures Classify(objects) == Some(Classification("mobile_phone", Confidence(objects[i]), objects[i]))
    {
      BestIndexUnique(cs, i);
    }
    var r := BestIndex(cs);
    if r.Some? {
      assert EarliestMax(objects, r.value);
    }
  }

  /** Classification reads labels case-insensitively, but reports the spelling it was given. */
  lemma ClassifyIgnoresCase(a: seq<string>, b: seq<string>, i: int)
    requires |a| == |b| && forall j :: 0 <= j < |a| ==> ToLower(a[j]) == ToLower(b[j])
    ensures Classify(a).None? <==> Classify(b).None?
    ensures EarliestMax(a, i) ==>
              && EarliestMax(b, i)
              && Classify(a) == Some(Classification("mobile_phone", Confidence(a[i]), a[i]))
              && Classify(b) == Some(Classification("mobile_phone", Confidence(a[i]), b[i]))
  {
    assert Confidences(a) == Confidences(b);
    if EarliestMax(a, i) {
      ClassifyChoice(a);
      ClassifyChoice(b);
    }
  }

  // ---------------------------------------------------------------------------
  // Responses

  datatype Response<B> = Response(status: int, body: B)

  /** The selector id that every recognised phone is sent to. */
  const SelectorId: string := "enhanced-phone-problem-selector"

  const PhoneLabels: seq<string> := ["cell phone", "smartphone", "mobile phone", "iphone", "android"]

  datatype RecognizeBody =
    | NoObjects(error: string, example: seq<string>)
    | NotAPhone(error: string, detected: seq<string>, supported: seq<string>, message: string)
    | PhoneRecognized(deviceModel: string, deviceType: string, instructionSetId: string,
                      detectedObjects: seq<string>, confidence: int, detectedAs: string,
                      nextStep: string, message: string)

  /**
   * `POST /api/recognize-device`, given `detectedObjects` already parsed (None when the
   * field is missing or falsy).
   */
  function RecognizeDevice(detectedObjects: Option<seq<string>>): Response<RecognizeBody>
  {
    if detectedObjects.None? then
      Response(400, NoObjects("No detected objects provided", ["cell phone"]))
    else
      var objects := detectedObjects.value;
      match Classify(objects)
      case None =>
        Response(404, NotAPhone("Please scan a mobile phone for enhanced AR troubleshooting!", objects, PhoneLabels,
                                "Point your camera at a mobile phone to experience 3D AR diagnostics with voice guidance."))
      case Some(c) =>
        Response(200, PhoneRecognized("Enhanced_AR_Mobile_Phone", "mobile_phone", SelectorId, objects,
                                      c.confidence, c.detectedAs, "enhanced_problem_selection",
                                      "Mobile phone detected! Enhanced AR diagnostics ready with 3D models and voice guidance."))
  }

  /** The three outcomes, each tied to the classifier. */
  lemma RecognizeDeviceOutcomes(detectedObjects: Option<seq<string>>)
    ensures var r := RecognizeDevice(detectedObjects);
      && (r.status == 400 <==> detectedObjects.None?)
      && (r.status == 404 <==>
            detectedObjects.Some? && forall j :: 0 <= j < |detectedObjects.value| ==> Confidence(detectedObjects.value[j]) == 0)
      && (r.status == 200 <==> detectedObjects.Some? && Classify(detectedObjects.value).Some?)
      && (r.status == 200 ==>
            r.body.PhoneRecognized? && r.body.instructionSetId == SelectorId
            && r.body.detectedObjects == detectedObjects.value
            && r.body.confidence == Classify(detectedObjects.value).value.confidence
            && r.body.detectedAs == Classify(detectedObjects.value).value.detectedAs)
  {
    if detectedObjects.Some? {
      ClassifyChoice(detectedObjects.value);
    }
  }

  // ---------------------------------------------------------------------------
  // /api/phone-problem

  /** `{ ...step, ar_metadata: { ... } }` with the defaults for missing fields. */
  function Enrich(s: InstructionStep): (e: InstructionStep)
    ensures e.(arMetadata := s.arMetadata) == s
    ensures e.arMetadata.Some? && e.arMetadata.value.StepMetadata?
    ensures e.arMetadata.value.enhancedVoiceover == s.voiceover
    ensures e.arMetadata.value.componentTarget == (if Truthy(s.componentTarget) then s.componentTarget.value else "screen")
    ensures e.arMetadata.value.arEffects == (if s.arEffects.Some? then s.arEffects.value else ["highlight_component"])
  {
    var target := if s.componentTarget.Some? && s.componentTarget.value != [] then s.componentTarget.value else "screen";
    var effects := if s.arEffects.Some? then s.arEffects.value else ["highlight_component"];
    s.(arMetadata := Some(StepMetadata(target, effects, s.voiceover)))
  }

  /** `instructions.steps.map(...)` */
  function EnrichAll(steps: seq<InstructionStep>): (es: seq<InstructionStep>)
    ensures |es| == |steps|
    ensures forall j :: 0 <= j < |steps| ==> es[j] == Enrich(steps[j])
  {
    if steps == [] then [] else [Enrich(steps[0])] + EnrichAll(steps[1..])
  }

  datatype ProblemBody =
    | InvalidProblem(error: string, availableProblems: seq<string>)
    | ProblemInstructions(problem: string, deviceModel: string, deviceType: string, instructionSetId: string,
                          arEnhanced: bool, steps: seq<InstructionStep>, totalSteps: int, estimatedTime: int)
    | ProblemFailure(error: string, arStatus: string)

  /** No two entries share a key. */
  predicate DistinctKeys(table: seq<Entry>)
  {
    forall i, j :: 0 <= i < j < |table| ==> table[i].key != table[j].key
  }

  /** No two entries share an instruction set id. */
  predicate DistinctIds(table: seq<Entry>)
  {
    forall i, j :: 0 <= i < j < |table| ==> table[i].instructions.instructionSetId != table[j].instructions.instructionSetId
  }

  lemma {:induction false} LookupAt(table: seq<Entry>, i: nat)
    requires DistinctKeys(table) && i < |table|
    ensures Lookup(table, table[i].key) == Some(table[i].instructions)
  {
    if i > 0 {
      assert DistinctKeys(table[1..]);
      assert table[0].key != table[i].key;
      LookupAt(table[1..], i - 1);
    }
  }

  /**
   * `POST /api/phone-problem` over the table, as its guard means it: only an own key
   * of the table selects a set.
   */
  function PhoneProblem(table: seq<Entry>, problem: Option<string>): Response<ProblemBody>
  {
    var invalid := Response(400, InvalidProblem("Please select a valid problem for enhanced AR troubleshooting", Keys(table)));
    if !Truthy(problem) then invalid
    else
      match Lookup(table, problem.value)
      case None => invalid
      case Some(s) =>
        Response(200, ProblemInstructions(problem.value, s.deviceModel, s.deviceType, s.instructionSetId, s.arEnhanced,
                                          EnrichAll(s.steps), |s.steps|, SumDurations(s.steps)))
  }

  /**
   * `POST /api/phone-problem` as written: `mobileInstructions[problem]` also finds the
   * members every object inherits, which pass the guard; reading `.steps.map` on them
   * then throws and the handler answers 500.
   */
  function PhoneProblemAsWritten(table: seq<Entry>, problem: Option<string>): Response<ProblemBody>
  {
    if Truthy(problem) && problem.value in InheritedMembers && problem.value !in Keys(table) then
      Response(500, ProblemFailure("Internal server error", "error"))
    else PhoneProblem(table, problem)
  }

  /** 400 exactly for a missing or unknown problem; its body lists the table's keys. */
  lemma PhoneProblemValidation(table: seq<Entry>, problem: Option<string>)
    ensures var r := PhoneProblem(table, problem);
      && (r.status == 400 <==> !Truthy(problem) || problem.value !in Keys(table))
      && (r.status == 400 ==> r.body.InvalidProblem? && r.body.availableProblems == Keys(table))
      && (r.status == 400 || r.status == 200)
  {
  }

  /**
   * A known problem answers with its set: the steps keep their order and every field
   * they had, gain their `ar_metadata`, and the totals are the step count and the sum
   * of the durations, which for a well-formed set is positive and at least one
   * millisecond per step.
   */
  lemma PhoneProblemSteps(table: seq<Entry>, i: nat)
    requires DistinctKeys(table) && i < |table| && table[i].key != []
    ensures var e := table[i];
      var r := PhoneProblem(table, Some(e.key));
      && r.status == 200 && r.body.ProblemInstructions?
      && r.body.problem == e.key && r.body.instructionSetId == e.instructions.instructionSetId
      && |r.body.steps| == |e.instructions.steps| == r.body.totalSteps
      && r.body.estimatedTime == SumDurations(e.instructions.steps)
      && (forall j :: 0 <= j < |r.body.steps| ==> r.body.steps[j] == Enrich(e.instructions.steps[j]))
      && (WellFormedSet(e.instructions) ==> r.body.estimatedTime >= r.body.totalSteps > 0)
  {
    LookupAt(table, i);
    if WellFormedSet(table[i].instructions) {
      SumDurationsPositive(table[i].instructions.steps);
    }
  }

  /**
   * A name every object inherits, absent from the table, gets 500 as written and 400 as
   * intended; `constructor` is one, and it is not a key of the served table (`TableKeys`).
   */
  lemma InheritedKeyAnswers(table: seq<Entry>, key: string)
    requires key in InheritedMembers && key !in Keys(table)
    ensures PhoneProblemAsWritten(table, Some(key)).status == 500
    ensures PhoneProblem(table, Some(key)).status == 400
  {
    PhoneProblemValidation(table, Some(key));
  }

  // ---------------------------------------------------------------------------
  // /api/instructions/:id

  const SelectorVoiceover := "I can see you have a mobile phone. What problem would you like me to help you fix with enhanced AR guidance?"

  /** The single step of the problem-selector set. */
  function SelectorStep(): InstructionStep
  {
    InstructionStep(1, "What's the problem?", "Select your phone issue for enhanced AR troubleshooting",
                    "enhanced_phone_question.glb", SelectorVoiceover, "PhoneScreen", [0.0, 0.0, 0.01],
                    None, None, 5000, true,
                    Some(SelectorMetadata("screen", ["welcome_animation", "problem_selector_highlight"])))
  }

  datatype InstructionsBody =
    | InstructionsFound(instructionSetId: string, deviceModel: string, deviceType: string, totalSteps: int,
                        estimatedTime: int, arEnhanced: bool, steps: seq<InstructionStep>)
    | InstructionsNotFound(error: string, available: seq<string>, arStatus: string)

  /** `GET /api/instructions/:id` over the table. */
  function Instructions(table: seq<Entry>, id: string): Response<InstructionsBody>
  {
    if id == SelectorId then
      Response(200, InstructionsFound(id, "Enhanced_AR_Mobile_Phone", "mobile_phone", 1, 5000, true, [SelectorStep()]))
    else
      match FindById(table, id)
      case None => Response(404, InstructionsNotFound("Enhanced AR instruction set not found", SetIds(table), "instruction_not_found"))
      case Some(k) =>
        if table[k].key == [] then
          Response(404, InstructionsNotFound("Enhanced AR instruction set not found", SetIds(table), "instruction_not_found"))
        else
          var s := table[k].instructions;
          Response(200, InstructionsFound(id, s.deviceModel, s.deviceType, |s.steps|, SumDurations(s.steps), s.arEnhanced, s.steps))
  }

  /**
   * The selector id gives the one-step selector set, whose advertised totals agree with
   * its step; any other id is served when the first key holding it is truthy, and is
   * otherwise answered with 404 and the list of ids. A key `""` found by `find` is
   * falsy, so `!problem` turns it away although its set holds the id.
   */
  lemma InstructionsOutcomes(table: seq<Entry>, id: string)
    ensures var r := Instructions(table, id);
      var found := FindById(table, id);
      && (r.status == 200 <==> id == SelectorId || (found.Some? && table[found.value].key != []))
      && (r.status == 404 <==> id != SelectorId && (found.None? || table[found.value].key == []))
      && (r.status == 404 ==> r.body.InstructionsNotFound? && r.body.available == SetIds(table))
      && (r.status == 200 ==>
            r.body.InstructionsFound? && r.body.instructionSetId == id
            && r.body.totalSteps == |r.body.steps| && r.body.estimatedTime == SumDurations(r.body.steps))
      && (id == SelectorId ==> r.body.steps == [SelectorStep()] && r.body.totalSteps == 1 && r.body.estimatedTime == 5000)
  {
    if id == SelectorId {
      assert [SelectorStep()][..0] == [];
    }
  }

  /**
   * When every key is non-empty, as in the served table (`ServedTableConsistent`), an
   * id other than the selector's is served exactly when some set holds it.
   */
  lemma InstructionsWithTruthyKeys(table: seq<Entry>, id: string)
    requires forall i :: 0 <= i < |table| ==> table[i].key != []
    ensures var r := Instructions(table, id);
      && (r.status == 200 <==> id == SelectorId || id in SetIds(table))
      && (r.status == 404 <==> id != SelectorId && id !in SetIds(table))
  {
    InstructionsOutcomes(table, id);
  }

  /** A set stored under the key `""` is not served by id: the found key is falsy. */
  lemma EmptyKeyNotServed(s: InstructionSet)
    requires s.instructionSetId != SelectorId
    ensures Instructions([Entry("", s)], s.instructionSetId).status == 404
  {
    assert FindById([Entry("", s)], s.instructionSetId) == Some(0);
  }

  /**
   * The two endpoints serve one set alike: fetching a set by its id gives the steps
   * that selecting its problem gives, without the added metadata, and the same totals.
   */
  lemma InstructionsAgreeWithPhoneProblem(table: seq<Entry>, i: nat)
    requires DistinctKeys(table) && DistinctIds(table) && i < |table| && table[i].key != []
    requires table[i].instructions.instructionSetId != SelectorId
    ensures var e := table[i];
      var byId := Instructions(table, e.instructions.instructionSetId);
      var byProblem := PhoneProblem(table, Some(e.key));
      && byId.status == 200 && byProblem.status == 200
      && byId.body.totalSteps == byProblem.body.totalSteps
      && byId.body.estimatedTime == byProblem.body.estimatedTime
      && |byId.body.steps| == |byProblem.body.steps|
      && forall j :: 0 <= j < |byId.body.steps| ==>
           byProblem.body.steps[j].(arMetadata := byId.body.steps[j].arMetadata) == byId.body.steps[j]
  {
    FindByIdAt(table, i);
    PhoneProblemSteps(table, i);
  }

  /** With distinct ids, an entry's id finds that entry. */
  lemma FindByIdAt(table: seq<Entry>, i: nat)
    requires DistinctIds(table) && i < |table|
    ensures FindById(table, table[i].instructions.instructionSetId) == Some(i)
  {
    var id := table[i].instructions.instructionSetId;
    var k := FindById(table, id);
    assert k.Some? by {
      assert SetIds(table)[i] == id;
    }
    assert k.value == i;
  }

  predicate DistinctStrings(ss: seq<string>)
  {
    forall i, j :: 0 <= i < j < |ss| ==> ss[i] != ss[j]
  }

  lemma DistinctFromLists(table: seq<Entry>)
    requires DistinctStrings(Keys(table)) && DistinctStrings(SetIds(table))
    ensures DistinctKeys(table) && DistinctIds(table)
  {
    assert forall i :: 0 <= i < |table| ==> Keys(table)[i] == table[i].key;
    assert forall i :: 0 <= i < |table| ==> SetIds(table)[i] == table[i].instructions.instructionSetId;
  }

  lemma ServedListsDistinct()
    ensures DistinctStrings(["battery_drain", "slow_performance", "overheating", "wifi_issues", "storage_full"])
    ensures DistinctStrings(["phone-battery-001", "phone-speed-001", "phone-heat-001", "phone-wifi-001", "phone-storage-001"])
  {
    assert "overheating"[0] != "wifi_issues"[0];
    assert "phone-battery-001"[6] != "phone-storage-001"[6];
    assert "phone-heat-001"[6] != "phone-wifi-001"[6];
  }

  /** The served table meets what the lemmas above ask of a table. */
  lemma ServedTableConsistent()
    ensures DistinctKeys(MobileInstructions()) && DistinctIds(MobileInstructions())
    ensures forall i :: 0 <= i < |MobileInstructions()| ==>
      MobileInstructions()[i].key != [] && MobileInstructions()[i].instructions.instructionSetId != SelectorId
  {
    TableKeys();
    TableSetIds();
    ServedListsDistinct();
    DistinctFromLists(MobileInstructions());
    var t := MobileInstructions();
    forall i | 0 <= i < |t|
      ensures t[i].key != [] && t[i].instructions.instructionSetId != SelectorId
    {
      assert t[i].key == Keys(t)[i];
      assert |SetIds(t)[i]| < |SelectorId|;
    }
  }

  // ---------------------------------------------------------------------------
  // /api/chat

  /** The keyword groups of the chat endpoint, in the order they are tried. */
  datatype ChatTopic = BatteryTopic | PerformanceTopic | HeatTopic | WifiTopic | StorageTopic | ArTopic | DefaultTopic

  /** The first keyword group that occurs in the lower-cased message. */
  function ChatTopicOf(lower: string): ChatTopic
  {
    if Contains(lower, "battery") then BatteryTopic
    else if Contains(lower, "slow") || Contains(lower, "lag") then PerformanceTopic
    else if Contains(lower, "hot") || Contains(lower, "heat") then HeatTopic
    else if Contains(lower, "wifi") || Contains(lower, "internet") then WifiTopic
    else if Contains(lower, "storage") || Contains(lower, "space") then StorageTopic
    else if Contains(lower, "ar") || Contains(lower, "3d") then ArTopic
    else DefaultTopic
  }

  function TopicReply(t: ChatTopic): string
  {
    match t
    case BatteryTopic => "For battery issues with AR guidance: I'll show you 3D highlights of Settings > Battery, guide you to close background apps with visual indicators, and help enable battery saver mode with component highlighting."
    case PerformanceTopic => "For performance issues with enhanced AR: I'll guide you through phone restart with power button highlighting, cache clearing with visual storage indicators, and app updates with 3D animations."
    case HeatTopic => "For overheating with AR cooling assistance: I'll show you case removal techniques, highlight heavy apps to close, and provide visual cooling guidance with temperature indicators."
    case WifiTopic => "For WiFi problems with AR network diagnostics: I'll highlight WiFi toggles with signal visualization, guide network reconnection with 3D indicators, and show network reset procedures."
    case StorageTopic => "For storage issues with AR cleanup guidance: I'll show storage visualization, highlight photos/videos for cleanup, and guide app data clearing with progress indicators."
    case ArTopic => "Enhanced AR features include: 3D phone models with realistic components, holographic highlighting of specific parts, voice-guided step-by-step instructions, particle effects for celebrations, and progress visualization!"
    case DefaultTopic => "I specialize in enhanced AR mobile phone troubleshooting! Try scanning your phone for 3D guided repairs with voice assistance."
  }

  datatype ChatBody =
    | MessageRequired(error: string)
    | ChatReply(response: string, topic: ChatTopic, contextUsed: bool, arEnhanced: bool, aiPowered: bool,
                deviceType: Option<string>)

  /**
   * `POST /api/chat`; `hasContext` is the truthiness of `context` and `arMode` the value
   * of `ar_mode` with its default `false` applied.
   */
  function Chat(message: string, hasContext: bool, deviceType: Option<string>, arMode: bool): Response<ChatBody>
  {
    if message == [] then Response(400, MessageRequired("Message is required"))
    else
      var topic := ChatTopicOf(ToLower(message));
      Response(200, ChatReply(TopicReply(topic), topic, hasContext, arMode, false, deviceType))
  }

  /** 400 exactly without a message; otherwise the topic's reply and the request's flags. */
  lemma ChatOutcomes(message: string, hasContext: bool, deviceType: Option<string>, arMode: bool)
    ensures var r := Chat(message, hasContext, deviceType, arMode);
      && (r.status == 400 <==> message == [])
      && (r.status == 200 ==>
            && r.body.ChatReply? && r.body.topic == ChatTopicOf(ToLower(message))
            && r.body.response == TopicReply(r.body.topic) && !r.body.aiPowered
            && r.body.contextUsed == hasContext && r.body.arEnhanced == arMode && r.body.deviceType == deviceType)
  {
  }

  /** The battery group is tried first, then slow/lag, then hot/heat, then wifi/internet. */
  lemma ChatTopicOrderFirst(lower: string)
    ensures ChatTopicOf(lower) == BatteryTopic <==> Contains(lower, "battery")
    ensures ChatTopicOf(lower) == PerformanceTopic <==>
      !Contains(lower, "battery") && (Contains(lower, "slow") || Contains(lower, "lag"))
    ensures ChatTopicOf(lower) == HeatTopic <==>
      !Contains(lower, "battery") && !Contains(lower, "slow") && !Contains(lower, "lag")
      && (Contains(lower, "hot") || Contains(lower, "heat"))
    ensures ChatTopicOf(lower) == WifiTopic <==>
      !Contains(lower, "battery") && !Contains(lower, "slow") && !Contains(lower, "lag")
      && !Contains(lower, "hot") && !Contains(lower, "heat")
      && (Contains(lower, "wifi") || Contains(lower, "internet"))
  {
  }

  /** After those, the storage/space group, then ar/3d, then the default reply. */
  lemma ChatTopicOrderLast(lower: string)
    ensures var earlier := Contains(lower, "battery") || Contains(lower, "slow") || Contains(lower, "lag")
                           || Contains(lower, "hot") || Contains(lower, "heat")
                           || Contains(lower, "wifi") || Contains(lower, "internet");
      && (ChatTopicOf(lower) == StorageTopic <==> !earlier && (Contains(lower, "storage") || Contains(lower, "space")))
      && (ChatTopicOf(lower) == ArTopic <==>
            !earlier && !Contains(lower, "storage") && !Contains(lower, "space")
            && (Contains(lower, "ar") || Contains(lower, "3d")))
      && (ChatTopicOf(lower) == DefaultTopic <==>
            !earlier && !Contains(lower, "storage") && !Contains(lower, "space")
            && !Contains(lower, "ar") && !Contains(lower, "3d"))
  {
  }

  /** The reply depends only on the lower-cased message. */
  lemma ChatIgnoresCase(a: string, b: string, hasContext: bool, deviceType: Option<string>, arMode: bool)
    requires ToLower(a) == ToLower(b)
    ensures Chat(a, hasContext, deviceType, arMode) == Chat(b, hasContext, deviceType, arMode)
  {
    assert |a| == |ToLower(a)|;
  }

  /**
   * "ar" is a very short keyword: any message mentioning "heart", "card" or "search"
   * without an earlier group's keyword is answered with the AR features text.
   */
  lemma ChatArMatchesInsideWords(lower: string)
    requires Contains(lower, "search")
    requires ChatTopicOf(lower) != BatteryTopic && ChatTopicOf(lower) != PerformanceTopic
    requires ChatTopicOf(lower) != HeatTopic && ChatTopicOf(lower) != WifiTopic && ChatTopicOf(lower) != StorageTopic
    ensures ChatTopicOf(lower) == ArTopic
  {
    var i := ContainsImpliesOccurs(lower, "search");
    SearchHoldsAr(lower, i);
    ContainsAt(lower, "ar", i + 2);
  }

  lemma SearchHoldsAr(s: string, i: int)
    requires OccursAt(s, "search", i)
    ensures OccursAt(s, "ar", i + 2)
  {
    var w := s[i..i + 6];
    assert w[2..4] == "ar";
    assert s[i + 2..i + 4] == w[2..4];
  }
}
