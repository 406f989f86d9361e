/**
 * Intent classification (worker/llm/intent_classifier.py): the model is asked
 * which of fourteen intents a message has; its reply is cut from the first
 * `{` to the last `}`, decoded, and read with defaults. Nothing raises: a
 * reply that cannot be read is UNKNOWN, a failed model call is TRANSACTION.
 */
module IntentClassifier {
  import opened Wrappers
  import opened Text
  import opened Json
  import LlmParser

  /** `UserIntent` */
  datatype UserIntent =
    | Transaction | Help | History | Export | SmallTalk
    | Insight | Prediction | SavingRec | HealthScore | Simulation
    | Analysis | Upgrade | Status | Unknown
  {
    /** The enum member's string value. */
    function Value(): string {
      match this
      case Transaction => "transaction"
      case Help => "help"
      case History => "history"
      case Export => "export"
      case SmallTalk => "small_talk"
      case Insight => "insight"
      case Prediction => "prediction"
      case SavingRec => "saving_rec"
      case HealthScore => "health_score"
      case Simulation => "simulation"
      case Analysis => "analysis"
      case Upgrade => "upgrade"
      case Status => "status"
      case Unknown => "unknown"
    }
  }

  /** `UserIntent(s)`: the member with that value; None where Python raises ValueError. */
  function IntentOf(s: string): (r: Option<UserIntent>)
    ensures r.Some? ==> r.value.Value() == s
  {
    if s == "transaction" then Some(Transaction)
    else if s == "help" then Some(Help)
    else if s == "history" then Some(History)
    else if s == "export" then Some(Export)
    else if s == "small_talk" then Some(SmallTalk)
    else if s == "insight" then Some(Insight)
    else if s == "prediction" then Some(Prediction)
    else if s == "saving_rec" then Some(SavingRec)
    else if s == "health_score" then Some(HealthScore)
    else if s == "simulation" then Some(Simulation)
    else if s == "analysis" then Some(Analysis)
    else if s == "upgrade" then Some(Upgrade)
    else if s == "status" then Some(Status)
    else if s == "unknown" then Some(Unknown)
    else None
  }

  /** Every member is found by its own value, so lookup and value are inverse. */
  lemma IntentValueRoundTrip(i: UserIntent)
    ensures IntentOf(i.Value()) == Some(i)
  {
  }

  /** What `_parse_llm_response` and `classify` return. */
  datatype Classification = Classification(
    intent: UserIntent,
    confidence: real,
    period: Json,
    direction: Json,
    reason: Json)

  /** The reply could not be read. */
  const ParseFailure: Classification := Classification(Unknown, 0.0, JNull, JNull, JStr("Failed to parse"))

  /** The model call failed. */
  const Fallback: Classification := Classification(Transaction, 0.3, JNull, JNull, JStr("Fallback due to error"))

  /**
   * `text[text.find("{"):text.rfind("}") + 1]`, None when either brace is
   * missing; a `}` before the first `{` gives Python's empty slice.
   */
  function OuterSpan(s: string): (r: Option<string>)
    ensures r.None? <==> '{' !in s || '}' !in s
    ensures r.Some? && FindChar(s, '{') <= RFindChar(s, '}') ==>
      r.value == s[FindChar(s, '{')..RFindChar(s, '}') + 1] && r.value[0] == '{' && r.value[|r.value| - 1] == '}'
    ensures r.Some? && FindChar(s, '{') > RFindChar(s, '}') ==> r.value == []
  {
    var start := FindChar(s, '{');
    var end := RFindChar(s, '}') + 1;
    if start == -1 || end == 0 then None
    else if start <= end then Some(s[start..end])
    else Some([])
  }

  /** `_parse_llm_response` */
  function ParseClassification(llmText: string, lib: Foreign): (r: Classification)
    ensures OuterSpan(llmText).None? ==> r == ParseFailure
  {
    match OuterSpan(llmText)
    case None => ParseFailure
    case Some(span) =>
      match lib.decode(span)
      case None => ParseFailure
      case Some(data) =>
        if !data.JObj? then ParseFailure
        else
          var d := data.fields;
          var named := Get(d, "intent", JStr("unknown"));
          if !named.JStr? then ParseFailure
          else
            var intent := IntentOf(Lower(named.s)).GetOr(Unknown);
            var confidence := LlmParser.PyFloat(Get(d, "confidence", JFloat(0.5)), lib);
            if confidence.Err? then ParseFailure
            else Classification(intent, confidence.value, Get(d, "period", JNull), Get(d, "direction", JNull), Get(d, "reasoning", JStr("")))
  }

  /** `_build_classification_prompt` */
  function ClassificationPrompt(system: string, text: string): (p: string)
    ensures EndsWith(p, "\nUser message: \"" + text + "\"\n")
  {
    var tail := "\nUser message: \"" + text + "\"\n";
    var p := system + "\n" + tail;
    assert p[|p| - |tail|..] == tail;
    p
  }

  /** `IntentClassifier.classify`: a failed model call falls back to TRANSACTION at 0.3. */
  function Classify(system: string, text: string, llm: string -> Option<string>, lib: Foreign): (r: Classification)
    ensures llm(ClassificationPrompt(system, text)).None? ==> r == Fallback
    ensures llm(ClassificationPrompt(system, text)).Some? ==>
      r == ParseClassification(llm(ClassificationPrompt(system, text)).value, lib)
  {
    match llm(ClassificationPrompt(system, text))
    case None => Fallback
    case Some(reply) => ParseClassification(reply, lib)
  }

  /**
   * A reply whose object names an intent in any letter case is classified
   * as that intent; any other string is UNKNOWN; a missing confidence is 0.5.
   */
  lemma ReadIntent(llmText: string, lib: Foreign, span: string, d: map<string, Json>, s: string)
    requires OuterSpan(llmText) == Some(span) && lib.decode(span) == Some(JObj(d))
    requires "intent" in d && d["intent"] == JStr(s)
    requires "confidence" !in d
    ensures IntentOf(Lower(s)).Some? ==> ParseClassification(llmText, lib).intent == IntentOf(Lower(s)).value
    ensures IntentOf(Lower(s)).None? ==> ParseClassification(llmText, lib).intent == Unknown
    ensures ParseClassification(llmText, lib).confidence == 0.5
    ensures ParseClassification(llmText, lib).intent.Value() == Lower(s) || ParseClassification(llmText, lib).intent == Unknown
  {
  }

  /** A reply without an "intent" key is UNKNOWN, not a failure. */
  lemma MissingIntentIsUnknown(llmText: string, lib: Foreign, span: string, d: map<string, Json>)
    requires OuterSpan(llmText) == Some(span) && lib.decode(span) == Some(JObj(d))
    requires "intent" !in d && "confidence" !in d
    ensures ParseClassification(llmText, lib) == Classification(Unknown, 0.5, Get(d, "period", JNull), Get(d, "direction", JNull), Get(d, "reasoning", JStr("")))
  {
    assert Lower("unknown") == "unknown";
  }

  /** An "intent" that is not a string makes the reply unreadable. */
  lemma NonStringIntentFails(llmText: string, lib: Foreign, span: string, d: map<string, Json>)
    requires OuterSpan(llmText) == Some(span) && lib.decode(span) == Some(JObj(d))
    requires "intent" in d && !d["intent"].JStr?
    ensures ParseClassification(llmText, lib) == ParseFailure
  {
  }

  /** Letter case of the intent does not matter. */
  lemma ClassificationCaseInsensitive(s: string)
    ensures IntentOf(Lower(Upper(s))) == IntentOf(Lower(s))
  {
    assert forall i :: 0 <= i < |s| ==> Lower(Upper(s))[i] == Lower(s)[i];
    assert Lower(Upper(s)) == Lower(s);
  }

  /**
   * The classifier's first-`{`-to-last-`}` cut and the transaction parser's
   * balanced-brace scan differ on a reply holding two objects.
   */
  lemma OuterSpanDiffersFromBalanced()
    ensures OuterSpan("{}{}") == Some("{}{}")
    ensures LlmParser.JsonSpan("{}{}") == Ok("{}")
  {
    var s := "{}{}";
    assert FindChar(s, '{') == 0;
    assert RFindChar(s, '}') == 3;
    assert s[..1] == "{" && "{"[..0] == [];
    assert LlmParser.Depth([]) == 0;
    assert LlmParser.Depth("{") == 1;
    assert LlmParser.ClosesAt(s, 1);
    assert !LlmParser.ClosesAt(s, 0);
    assert LlmParser.FirstClose(s, 1) == Some(1);
    assert LlmParser.FirstClose(s, 0) == Some(1);
    assert s[0..4] == s && s[0..2] == "{}";
  }
}
