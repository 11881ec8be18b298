/**
 * Mapping a recognised object label to a device name: the first device, in table order,
 * whose alias list holds the lowercased label. The table itself is an input.
 */
module LabelMap {
  import opened JsText

  /** One `[device, aliases]` pair of `Object.entries(labelMap)`. */
  datatype Entry = Entry(device: string, aliases: seq<string>)

  /** The index of the first entry whose aliases hold `name`. */
  function FirstHolding(labelMap: seq<Entry>, name: string): (r: Option<nat>)
    ensures r.Some? ==> r.value < |labelMap| && name in labelMap[r.value].aliases
    ensures r.Some? ==> forall j :: 0 <= j < r.value ==> name !in labelMap[j].aliases
    ensures r.None? ==> forall j :: 0 <= j < |labelMap| ==> name !in labelMap[j].aliases
    decreases |labelMap|
  {
    if labelMap == [] then None
    else if name in labelMap[0].aliases then Some(0)
    else
      var r := FirstHolding(labelMap[1..], name);
      assert forall j :: 1 <= j < |labelMap| ==> labelMap[j] == labelMap[1..][j - 1];
      if r.Some? then Some(r.value + 1) else None
  }

  /** `mapLabelToDevice(name)`; `None` is `null`. */
  function MapLabelToDevice(name: string, labelMap: seq<Entry>): (r: Option<string>)
    ensures r.None? <==> forall j :: 0 <= j < |labelMap| ==> ToLower(name) !in labelMap[j].aliases
    ensures r.Some? ==> exists j :: 0 <= j < |labelMap| && labelMap[j].device == r.value
  {
    match FirstHolding(labelMap, ToLower(name))
    case Some(i) => Some(labelMap[i].device)
    case None => None
  }

  /** The first entry holding the lowercased label gives the device, even when later ones hold it too. */
  lemma MapLabelFirstWins(name: string, labelMap: seq<Entry>, k: nat)
    requires k < |labelMap| && ToLower(name) in labelMap[k].aliases
    requires forall j :: 0 <= j < k ==> ToLower(name) !in labelMap[j].aliases
    ensures MapLabelToDevice(name, labelMap) == Some(labelMap[k].device)
  {
  }

  /** The label's case does not matter. */
  lemma MapLabelIgnoresCase(name: string, labelMap: seq<Entry>)
    ensures MapLabelToDevice(ToLower(name), labelMap) == MapLabelToDevice(name, labelMap)
  {
    ToLowerIsLower(name);
  }

  /**
   * Aliases are compared whole: an alias list that only holds strings other than the
   * lowercased label gives nothing, even when the label occurs inside one of them.
   */
  lemma MapLabelNoSubstringMatch()
    ensures MapLabelToDevice("TV", [Entry("television", ["smart tv"])]) == None
  {
    assert ToLower("TV") == "tv";
    assert "tv" != "smart tv";
  }

  /** An alias with an upper-case letter can never be matched, whatever the label. */
  lemma UpperCaseAliasUnreachable(name: string, alias: string)
    requires !IsLower(alias)
    ensures ToLower(name) != alias
  {
    ToLowerIsLower(name);
  }
}
