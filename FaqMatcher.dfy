/**
 * The offline question matcher: a fixed table of keyword lists and answers, searched in
 * order for the first entry whose keywords all occur in the lowercased question.
 */
module FaqMatcher {
  import opened JsText

  datatype Entry = Entry(keywords: seq<string>, response: string)

  const RouterAnswer: string :=
    "To reset your router, hold the reset button for 10 seconds until the lights blink."
  const MicrowaveAnswer: string :=
    "To change time on your microwave, press \"Clock\", enter the time, then \"Start\"."
  const FilterAnswer: string :=
    "To replace your water filter, twist and pull out the old one, insert the new one until it clicks."
  const HelpAnswer: string :=
    "Sure! Tell me what kind of device you need help with: router, microwave, or water filter."
  const Apology: string :=
    "Sorry, I couldn't find a guide for that. Please try rephrasing your question."

  /** The `responses` table, in its order. */
  const Responses: seq<Entry> := [
    Entry(["reset", "router"], RouterAnswer),
    Entry(["change", "microwave", "time"], MicrowaveAnswer),
    Entry(["replace", "water", "filter"], FilterAnswer),
    Entry(["help", "device"], HelpAnswer)
  ]

  /** `keywords.every(k => q.includes(k))` */
  predicate AllKeywords(q: string, keywords: seq<string>)
  {
    forall k :: 0 <= k < |keywords| ==> Contains(q, keywords[k])
  }

  /** The index of the first entry whose keywords all occur in `q`. */
  function FirstMatch(q: string, entries: seq<Entry>): (r: Option<nat>)
    ensures r.Some? ==> r.value < |entries| && AllKeywords(q, entries[r.value].keywords)
    ensures r.Some? ==> forall j :: 0 <= j < r.value ==> !AllKeywords(q, entries[j].keywords)
    ensures r.None? ==> forall j :: 0 <= j < |entries| ==> !AllKeywords(q, entries[j].keywords)
    decreases |entries|
  {
    if entries == [] then None
    else if AllKeywords(q, entries[0].keywords) then Some(0)
    else
      var r := FirstMatch(q, entries[1..]);
      assert forall j :: 1 <= j < |entries| ==> entries[j] == entries[1..][j - 1];
      if r.Some? then Some(r.value + 1) else None
  }

  function GetSmartResponse(query: string): (r: string)
    ensures r in {RouterAnswer, MicrowaveAnswer, FilterAnswer, HelpAnswer, Apology}
  {
    match FirstMatch(ToLower(query), Responses)
    case Some(i) => Responses[i].response
    case None => Apology
  }

  /**
   * The answer is that of the first entry whose keywords all occur in the lowercased
   * query, and the apology exactly when there is none.
   */
  lemma SmartResponseFirstMatch(query: string, i: nat)
    requires i < |Responses| && AllKeywords(ToLower(query), Responses[i].keywords)
    requires forall j :: 0 <= j < i ==> !AllKeywords(ToLower(query), Responses[j].keywords)
    ensures GetSmartResponse(query) == Responses[i].response
  {
  }

  lemma SmartResponseApology(query: string)
    ensures GetSmartResponse(query) == Apology <==>
      forall j :: 0 <= j < |Responses| ==> !AllKeywords(ToLower(query), Responses[j].keywords)
  {
    var f := FirstMatch(ToLower(query), Responses);
    if f.Some? {
      var i := f.value;
      assert Responses[i].response != Apology by {
        assert |Apology| == 77;
        assert |RouterAnswer| == 82 && |MicrowaveAnswer| == 78 && |FilterAnswer| == 97 && |HelpAnswer| == 89;
      }
    }
  }

  /** The query's case does not matter. */
  lemma SmartResponseIgnoresCase(query: string)
    ensures GetSmartResponse(ToLower(query)) == GetSmartResponse(query)
  {
    ToLowerIsLower(query);
  }

  /**
   * Overlaps are settled by table order: a query that mentions both reset and router gets
   * the router answer, whatever else it mentions (`help` and `device` included).
   */
  lemma RouterAnswerWins(query: string)
    requires Contains(ToLower(query), "reset") && Contains(ToLower(query), "router")
    ensures GetSmartResponse(query) == RouterAnswer
  {
    assert AllKeywords(ToLower(query), Responses[0].keywords);
  }
}
