/** The FastAPI RAG service: the pydantic request constraints and the mock
    responses its endpoints currently return, plus how its constraints compare
    with the Express backend's zod schemas for the bodies that backend forwards. */
module RagService {
  import opened Json
  import opened Text
  import BackendRoutes
  import LegalFunctions

  // ------------------------------------------------------ request models

  /** `^[A-Z]{2}$`: exactly two upper-case ASCII letters. */
  predicate TwoUpperLetters(s: string)
  {
    |s| == 2 && 'A' <= s[0] <= 'Z' && 'A' <= s[1] <= 'Z'
  }

  /** A JSON number that an `int` field takes (no fractional part). */
  predicate IsWhole(n: real)
  {
    n == n.Floor as real
  }

  datatype QueryRequest = QueryRequest(question: string, jurisdiction: Option<string>, documentTypes: Option<seq<string>>, maxResults: int)

  /** What `QueryRequest` accepts: a question of length at least 1, an optional
      (absent or null) jurisdiction matching `^[A-Z]{2}$`, an optional list of
      strings, and a whole maxResults in [1, 20]. */
  predicate QueryRequestValid(raw: Json)
  {
    && raw.JObj?
    && "question" in raw.fields && raw.fields["question"].JStr? && |raw.fields["question"].s| >= 1
    && ("jurisdiction" !in raw.fields || raw.fields["jurisdiction"].JNull?
        || (raw.fields["jurisdiction"].JStr? && TwoUpperLetters(raw.fields["jurisdiction"].s)))
    && ("documentTypes" !in raw.fields || raw.fields["documentTypes"].JNull?
        || (raw.fields["documentTypes"].JArr? && BackendRoutes.AllStrings(raw.fields["documentTypes"].items)))
    && ("maxResults" !in raw.fields
        || (raw.fields["maxResults"].JNum? && IsWhole(raw.fields["maxResults"].n) && 1.0 <= raw.fields["maxResults"].n <= 20.0))
  }

  /** Validation of a `/query` body into a `QueryRequest`; None is a 422 reply. */
  function ParseQueryRequest(raw: Json): (r: Option<QueryRequest>)
    ensures r.Some? <==> QueryRequestValid(raw)
    ensures r.Some? ==> 1 <= r.value.maxResults <= 20 && |r.value.question| >= 1
    ensures r.Some? && r.value.jurisdiction.Some? ==> TwoUpperLetters(r.value.jurisdiction.value)
    ensures r.Some? && "maxResults" !in raw.fields ==> r.value.maxResults == 5
    ensures r.Some? && "maxResults" in raw.fields ==> raw.fields["maxResults"] == JNum(r.value.maxResults as real)
    ensures r.Some? ==> raw.fields["question"] == JStr(r.value.question)
    ensures r.Some? ==> (r.value.jurisdiction.Some? <==> "jurisdiction" in raw.fields && !raw.fields["jurisdiction"].JNull?)
    ensures r.Some? && r.value.jurisdiction.Some? ==> raw.fields["jurisdiction"] == JStr(r.value.jurisdiction.value)
    ensures r.Some? ==> (r.value.documentTypes.Some? <==> "documentTypes" in raw.fields && !raw.fields["documentTypes"].JNull?)
    ensures r.Some? && r.value.documentTypes.Some? ==> raw.fields["documentTypes"] == StringArray(r.value.documentTypes.value)
  {
    if !QueryRequestValid(raw) then None
    else
      var o := raw.fields;
      var types := if "documentTypes" in o && o["documentTypes"].JArr? then Some(Strings(o["documentTypes"].items)) else None;
      assert types.Some? ==> StringArray(types.value).items == o["documentTypes"].items;
      Some(QueryRequest(
        o["question"].s,
        if "jurisdiction" in o && o["jurisdiction"].JStr? then Some(o["jurisdiction"].s) else None,
        types,
        if "maxResults" in o then o["maxResults"].n.Floor else 5))
  }

  datatype StateComparisonRequest = StateComparisonRequest(concept: string, states: seq<string>)

  /** What `StateComparisonRequest` accepts: any concept string and 2 to 5 state strings of any length. */
  predicate StateComparisonRequestValid(raw: Json)
  {
    && raw.JObj?
    && "concept" in raw.fields && raw.fields["concept"].JStr?
    && "states" in raw.fields && raw.fields["states"].JArr?
    && BackendRoutes.AllStrings(raw.fields["states"].items)
    && 2 <= |raw.fields["states"].items| <= 5
  }

  function ParseStateComparison(raw: Json): (r: Option<StateComparisonRequest>)
    ensures r.Some? <==> StateComparisonRequestValid(raw)
    ensures r.Some? ==> 2 <= |r.value.states| <= 5
    ensures r.Some? ==> raw.fields["concept"] == JStr(r.value.concept)
    ensures r.Some? ==> StringArray(r.value.states) == raw.fields["states"]
  {
    if !StateComparisonRequestValid(raw) then None
    else
      var states := Strings(raw.fields["states"].items);
      assert StringArray(states).items == raw.fields["states"].items;
      Some(StateComparisonRequest(raw.fields["concept"].s, states))
  }

  // ------------------------------------------------------ mock responses

  function MockResult(jurisdiction: string): Json
  {
    JObj(map[
      "document_id" := JStr("mock_doc_1"),
      "relevance_score" := JNum(0.95),
      "document_type" := JStr("statute"),
      "title" := JStr("Sample Legal Reference"),
      "excerpt" := JStr("This is a mock response. Connect to actual RAG system."),
      "plain_language" := JStr("This explains the concept in simple terms."),
      // an opaque constant; its two characters after "Citation" are kept as the source file holds them
      "citation" := JStr("Mock Citation \U{0E22}\U{0E07} 1234"),
      "jurisdiction" := JStr(jurisdiction),
      "date_effective" := JStr("2024-01-01")])
  }

  /** `POST /query`: the jurisdiction is the request's or "federal", in the
      intent and in every result; sources_count counts the results. */
  function QueryResponse(req: QueryRequest): (r: Json)
    ensures r.JObj? && "query" in r.fields && r.fields["query"] == JStr(req.question)
    ensures "intent" in r.fields && r.fields["intent"].JObj? && "jurisdiction" in r.fields["intent"].fields
    ensures r.fields["intent"].fields["jurisdiction"] == JStr(OrDefault(req.jurisdiction, "federal"))
    ensures "results" in r.fields && r.fields["results"].JArr? && |r.fields["results"].items| >= 1
    ensures forall i :: 0 <= i < |r.fields["results"].items| ==>
      var item := r.fields["results"].items[i];
      item.JObj? && "jurisdiction" in item.fields && item.fields["jurisdiction"] == r.fields["intent"].fields["jurisdiction"]
    ensures "sources_count" in r.fields && r.fields["sources_count"] == JNum(|r.fields["results"].items| as real)
  {
    var jurisdiction := OrDefault(req.jurisdiction, "federal");
    var results := [MockResult(jurisdiction)];
    JObj(map[
      "query" := JStr(req.question),
      "intent" := JObj(map[
        "type" := JStr("general_query"),
        "jurisdiction" := JStr(jurisdiction),
        "concepts" := JArr([])]),
      "results" := JArr(results),
      "related_definitions" := JArr([]),
      "cross_references" := JArr([]),
      "procedural_next_steps" := StringArray([
        "Review the legal reference",
        "Consult with a qualified attorney",
        "Gather necessary documentation"]),
      "confidence_score" := JNum(0.85),
      "sources_count" := JNum(|results| as real)])
  }

  /** `GET /definition/{term}`: the term is echoed, plain_language is null
      exactly when plainLanguage is false, the jurisdiction defaults to "general". */
  function DefinitionResponse(term: string, jurisdiction: Option<string>, plainLanguage: bool): (r: Json)
    ensures r.JObj? && "term" in r.fields && r.fields["term"] == JStr(term)
    ensures "plain_language" in r.fields && (r.fields["plain_language"] == JNull <==> !plainLanguage)
    ensures "jurisdiction" in r.fields && r.fields["jurisdiction"] == JStr(OrDefault(jurisdiction, "general"))
  {
    JObj(map[
      "term" := JStr(term),
      "definition" := JStr("Legal definition of " + term),
      "plain_language" := if plainLanguage then JStr("Simple explanation of " + term) else JNull,
      "jurisdiction" := JStr(OrDefault(jurisdiction, "general")),
      "source" := JStr("Mock Legal Dictionary"),
      "citation" := JStr("Mock Citation"),
      "related_terms" := JArr([]),
      "examples" := JArr([])])
  }

  function MockComparison(): Json
  {
    JObj(map["system" := JStr("mock_system"), "key_rules" := JArr([]), "statutes" := JArr([]), "unique_features" := JArr([])])
  }

  /** The single key_differences sentence. */
  function KeyDifference(req: StateComparisonRequest): string
  {
    "State comparison for " + req.concept + " across " + Join(req.states, ", ")
  }

  /** `POST /compare-states`: one comparison per distinct requested state, the
      states echoed in order, and one key_differences sentence naming them. */
  function CompareResponse(req: StateComparisonRequest): (r: Json)
    ensures r.JObj? && "states" in r.fields && r.fields["states"] == StringArray(req.states)
    ensures "comparisons" in r.fields && r.fields["comparisons"].JObj?
    ensures r.fields["comparisons"].fields.Keys == set i | 0 <= i < |req.states| :: req.states[i]
    ensures "key_differences" in r.fields && r.fields["key_differences"] == JArr([JStr(KeyDifference(req))])
  {
    JObj(map[
      "concept" := JStr(req.concept),
      "states" := StringArray(req.states),
      "comparisons" := JObj(map s | s in req.states :: MockComparison()),
      "key_differences" := JArr([JStr(KeyDifference(req))]),
      "recommendations" := JArr([])])
  }

  /** Every requested state is named in the key_differences sentence. */
  lemma KeyDifferenceNamesEveryState(req: StateComparisonRequest, i: nat)
    requires i < |req.states|
    ensures exists a, b :: KeyDifference(req) == a + req.states[i] + b
  {
    JoinContains(req.states, ", ", i);
    var a, b :| Join(req.states, ", ") == a + req.states[i] + b;
    assert KeyDifference(req) == ("State comparison for " + req.concept + " across " + a) + req.states[i] + b;
  }

  /** `GET /procedure/{procedure_type}`: echoes both inputs, with one step numbered 1. */
  function ProcedureResponse(procedureType: string, jurisdiction: string): (r: Json)
    ensures r.JObj? && "procedure_type" in r.fields && r.fields["procedure_type"] == JStr(procedureType)
    ensures "jurisdiction" in r.fields && r.fields["jurisdiction"] == JStr(jurisdiction)
    ensures "steps" in r.fields && r.fields["steps"].JArr? && |r.fields["steps"].items| == 1
    ensures var step := r.fields["steps"].items[0]; step.JObj? && "step_number" in step.fields && step.fields["step_number"] == JNum(1.0)
  {
    JObj(map[
      "procedure_type" := JStr(procedureType),
      "jurisdiction" := JStr(jurisdiction),
      "steps" := JArr([JObj(map[
        "step_number" := JNum(1.0),
        "title" := JStr("Initial Filing"),
        "description" := JStr("File the required forms with the court"),
        "estimated_time" := JStr("1-2 hours")])]),
      "time_estimates" := JObj(map["total" := JStr("varies by case")]),
      "required_forms" := JArr([]),
      "cost_estimate" := JNull,
      "governing_statutes" := JArr([])])
  }

  // ------------------------------------------------------ backend vs RAG service

  /** The two services disagree on the jurisdiction of a query: the backend
      takes any two characters but not null, the RAG service takes null but only
      two upper-case letters. */
  lemma JurisdictionRulesDiffer()
    ensures var lower := JObj(map["question" := JStr("q"), "jurisdiction" := JStr("ca")]);
      BackendRoutes.QueryAccepted(lower) && !QueryRequestValid(lower)
    ensures var nil := JObj(map["question" := JStr("q"), "jurisdiction" := JNull]);
      !BackendRoutes.QueryAccepted(nil) && QueryRequestValid(nil)
  {
    var lower := JObj(map["question" := JStr("q"), "jurisdiction" := JStr("ca")]);
    assert lower.fields["jurisdiction"].s[0] == 'c';
  }

  /** A query the backend accepts and forwards is accepted by the RAG service
      exactly when its jurisdiction (if any) is two upper-case letters and its
      maxResults is whole. */
  lemma ForwardedQueryAcceptedIff(raw: Json)
    requires BackendRoutes.QueryAccepted(raw)
    ensures var d := BackendRoutes.ParseQuery(raw).value;
      QueryRequestValid(BackendRoutes.QueryDataJson(d))
      <==> (d.jurisdiction.None? || TwoUpperLetters(d.jurisdiction.value)) && IsWhole(d.maxResults)
  {
    var d := BackendRoutes.ParseQuery(raw).value;
    var j := BackendRoutes.QueryDataJson(d);
    if d.documentTypes.Some? {
      assert "documentTypes" in j.fields && j.fields["documentTypes"] == StringArray(d.documentTypes.value);
      assert BackendRoutes.AllStrings(j.fields["documentTypes"].items);
    }
  }

  /** A comparison the backend accepts and forwards always passes the RAG service's checks. */
  lemma ForwardedComparisonAccepted(raw: Json)
    requires BackendRoutes.ComparisonAccepted(raw)
    ensures StateComparisonRequestValid(BackendRoutes.ComparisonDataJson(BackendRoutes.ParseComparison(raw).value))
  {
    var d := BackendRoutes.ParseComparison(raw).value;
    var j := BackendRoutes.ComparisonDataJson(d);
    assert j.fields["states"] == StringArray(d.states);
    assert BackendRoutes.AllStrings(j.fields["states"].items);
  }

  /** End to end: the backend's `plainLanguage` query parameter is "false"
      exactly when the RAG service's definition carries no plain-language text. */
  lemma PlainLanguageEndToEnd(term: string, jurisdiction: Option<string>, plainParam: Option<string>)
    ensures DefinitionResponse(term, jurisdiction, BackendRoutes.PlainLanguageFlag(plainParam)).fields["plain_language"] == JNull
      <==> plainParam == Some("false")
  {
  }

  /** The JSON a serverless compare-states handler forwards, for a body made of
      just the fields it reads (`JSON.stringify` drops an undefined field). */
  function CompareBodyJson(b: LegalFunctions.CompareBody): Json
  {
    var withTopic := if b.topic.Some? then map["topic" := JStr(b.topic.value)] else map[];
    JObj(if b.states.Some? then withTopic["states" := StringArray(b.states.value)] else withTopic)
  }

  /** The serverless compare-states handler names the subject `topic`, the RAG
      service expects `concept`: such a forwarded body is always refused. */
  lemma ServerlessCompareBodyRefused(b: LegalFunctions.CompareBody)
    ensures !StateComparisonRequestValid(CompareBodyJson(b))
  {
  }
}
