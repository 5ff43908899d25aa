/** The Express router for `/api/legal`: zod schemas over the raw JSON body and
    the route bodies, each of which validates, then makes one upstream request
    (axios), then answers with the upstream data or passes the error on to the
    error middleware. A route is a function from its inputs and the upstream's
    answer to the request it made and what it did with the answer. */
module BackendRoutes {
  import opened Json
  import opened Text
  import opened ErrorHandler

  /** A zod `parse`: the parsed value, or the paths of the fields that failed. */
  datatype Parsed<T> = Valid(value: T) | Invalid(issues: seq<string>)

  // ------------------------------------------------------ field checks

  /** `z.string().min(n)`, required. */
  predicate RequiredString(o: map<string, Json>, k: string, min: nat)
  {
    k in o && o[k].JStr? && |o[k].s| >= min
  }

  /** `z.string().length(2)`, required. */
  predicate RequiredCode(o: map<string, Json>, k: string)
  {
    k in o && o[k].JStr? && |o[k].s| == 2
  }

  /** `z.string().length(2).optional()`: absent, or a string of length exactly 2 (null is refused). */
  predicate OptionalCode(o: map<string, Json>, k: string)
  {
    k !in o || (o[k].JStr? && |o[k].s| == 2)
  }

  predicate AllStrings(items: seq<Json>)
  {
    forall i :: 0 <= i < |items| ==> items[i].JStr?
  }

  /** `z.array(z.string()).optional()`. */
  predicate OptionalStringList(o: map<string, Json>, k: string)
  {
    k !in o || (o[k].JArr? && AllStrings(o[k].items))
  }

  /** `z.number().min(lo).max(hi).optional()`: any number in range, not only integers. */
  predicate OptionalNumberIn(o: map<string, Json>, k: string, lo: real, hi: real)
  {
    k !in o || (o[k].JNum? && lo <= o[k].n <= hi)
  }

  /** `z.boolean().optional()`. */
  predicate OptionalBool(o: map<string, Json>, k: string)
  {
    k !in o || o[k].JBool?
  }

  /** `z.array(z.string().length(2)).min(lo).max(hi)`, required. */
  predicate CodeList(o: map<string, Json>, k: string, lo: nat, hi: nat)
  {
    k in o && o[k].JArr? && lo <= |o[k].items| <= hi
    && forall i :: 0 <= i < |o[k].items| ==> o[k].items[i].JStr? && |o[k].items[i].s| == 2
  }

  /** The name of the field when its check failed. */
  function IssueIf(ok: bool, k: string): (r: seq<string>)
    ensures r == [] <==> ok
  {
    if ok then [] else [k]
  }

  function OptionalStr(o: map<string, Json>, k: string): Option<string>
  {
    if k in o && o[k].JStr? then Some(o[k].s) else None
  }

  // ------------------------------------------------------ querySchema

  datatype QueryData = QueryData(question: string, jurisdiction: Option<string>, documentTypes: Option<seq<string>>, maxResults: real)

  /** What querySchema accepts, field by field. */
  predicate QueryAccepted(raw: Json)
  {
    && raw.JObj?
    && RequiredString(raw.fields, "question", 1)
    && OptionalCode(raw.fields, "jurisdiction")
    && OptionalStringList(raw.fields, "documentTypes")
    && OptionalNumberIn(raw.fields, "maxResults", 1.0, 20.0)
  }

  function QueryIssues(o: map<string, Json>): seq<string>
  {
    IssueIf(RequiredString(o, "question", 1), "question")
    + IssueIf(OptionalCode(o, "jurisdiction"), "jurisdiction")
    + IssueIf(OptionalStringList(o, "documentTypes"), "documentTypes")
    + IssueIf(OptionalNumberIn(o, "maxResults", 1.0, 20.0), "maxResults")
  }

  /** `querySchema.parse(body)`; unknown fields are dropped and maxResults defaults to 5. */
  function ParseQuery(raw: Json): (r: Parsed<QueryData>)
    ensures r.Valid? <==> QueryAccepted(raw)
    ensures r.Valid? ==>
      && r.value.question == raw.fields["question"].s
      && r.value.maxResults == (if "maxResults" in raw.fields then raw.fields["maxResults"].n else 5.0)
      && 1.0 <= r.value.maxResults <= 20.0
    ensures r.Valid? ==> (r.value.jurisdiction.Some? <==> "jurisdiction" in raw.fields)
    ensures r.Valid? && r.value.jurisdiction.Some? ==> raw.fields["jurisdiction"] == JStr(r.value.jurisdiction.value)
    ensures r.Valid? ==> (r.value.documentTypes.Some? <==> "documentTypes" in raw.fields)
    ensures r.Valid? && r.value.documentTypes.Some? ==> raw.fields["documentTypes"] == StringArray(r.value.documentTypes.value)
    ensures r.Invalid? ==> |r.issues| > 0
  {
    if !raw.JObj? then Invalid([""])
    else
      var o := raw.fields;
      var issues := QueryIssues(o);
      if issues != [] then Invalid(issues)
      else
        var types := if "documentTypes" in o then Some(Strings(o["documentTypes"].items)) else None;
        assert types.Some? ==> StringArray(types.value).items == o["documentTypes"].items;
        Valid(QueryData(
        o["question"].s,
        OptionalStr(o, "jurisdiction"),
        types,
        if "maxResults" in o then o["maxResults"].n else 5.0))
  }

  /** The parsed query as the JSON body axios sends. */
  function QueryDataJson(d: QueryData): Json
  {
    var base := map["question" := JStr(d.question), "maxResults" := JNum(d.maxResults)];
    var withJ := if d.jurisdiction.Some? then base["jurisdiction" := JStr(d.jurisdiction.value)] else base;
    JObj(if d.documentTypes.Some? then withJ["documentTypes" := StringArray(d.documentTypes.value)] else withJ)
  }

  // ------------------------------------------------------ definitionSchema

  datatype DefinitionData = DefinitionData(term: string, jurisdiction: Option<string>, plainLanguage: bool)

  predicate DefinitionAccepted(raw: Json)
  {
    && raw.JObj?
    && RequiredString(raw.fields, "term", 1)
    && OptionalCode(raw.fields, "jurisdiction")
    && OptionalBool(raw.fields, "plainLanguage")
  }

  /** `definitionSchema.parse(body)`: plainLanguage defaults to true. The
      definition route itself does not use this schema. */
  function ParseDefinition(raw: Json): (r: Parsed<DefinitionData>)
    ensures r.Valid? <==> DefinitionAccepted(raw)
    ensures r.Valid? ==> r.value.term == raw.fields["term"].s
    ensures r.Valid? ==> (r.value.jurisdiction.Some? <==> "jurisdiction" in raw.fields)
    ensures r.Valid? && r.value.jurisdiction.Some? ==> raw.fields["jurisdiction"] == JStr(r.value.jurisdiction.value)
    ensures r.Valid? ==> (r.value.plainLanguage <==> "plainLanguage" !in raw.fields || raw.fields["plainLanguage"].b)
    ensures r.Invalid? ==> |r.issues| > 0
  {
    if !raw.JObj? then Invalid([""])
    else
      var o := raw.fields;
      var issues := IssueIf(RequiredString(o, "term", 1), "term")
        + IssueIf(OptionalCode(o, "jurisdiction"), "jurisdiction")
        + IssueIf(OptionalBool(o, "plainLanguage"), "plainLanguage");
      if issues != [] then Invalid(issues)
      else Valid(DefinitionData(o["term"].s, OptionalStr(o, "jurisdiction"),
                                if "plainLanguage" in o then o["plainLanguage"].b else true))
  }

  // ------------------------------------------------------ stateComparisonSchema

  datatype ComparisonData = ComparisonData(concept: string, states: seq<string>)

  predicate ComparisonAccepted(raw: Json)
  {
    && raw.JObj?
    && RequiredString(raw.fields, "concept", 1)
    && CodeList(raw.fields, "states", 2, 5)
  }

  /** `stateComparisonSchema.parse(body)`: a concept and 2 to 5 two-character states. */
  function ParseComparison(raw: Json): (r: Parsed<ComparisonData>)
    ensures r.Valid? <==> ComparisonAccepted(raw)
    ensures r.Valid? ==> 2 <= |r.value.states| <= 5 && r.value.concept != ""
    ensures r.Valid? ==> raw.fields["concept"] == JStr(r.value.concept)
    ensures r.Valid? ==> forall i :: 0 <= i < |r.value.states| ==> |r.value.states[i]| == 2
    ensures r.Valid? ==> StringArray(r.value.states) == raw.fields["states"]
    ensures r.Invalid? ==> |r.issues| > 0
  {
    if !raw.JObj? then Invalid([""])
    else
      var o := raw.fields;
      var issues := IssueIf(RequiredString(o, "concept", 1), "concept") + IssueIf(CodeList(o, "states", 2, 5), "states");
      if issues != [] then Invalid(issues)
      else
        var states := Strings(o["states"].items);
        assert StringArray(states).items == o["states"].items;
        Valid(ComparisonData(o["concept"].s, states))
  }

  function ComparisonDataJson(d: ComparisonData): Json
  {
    JObj(map["concept" := JStr(d.concept), "states" := StringArray(d.states)])
  }

  // ------------------------------------------------------ evidenceSchema

  datatype EvidenceData = EvidenceData(claimType: string, jurisdiction: string)

  predicate EvidenceAccepted(raw: Json)
  {
    raw.JObj? && RequiredString(raw.fields, "claimType", 1) && RequiredCode(raw.fields, "jurisdiction")
  }

  /** `evidenceSchema.parse(body)`: a non-empty claim type and a two-character jurisdiction. */
  function ParseEvidence(raw: Json): (r: Parsed<EvidenceData>)
    ensures r.Valid? <==> EvidenceAccepted(raw)
    ensures r.Valid? ==> r.value.claimType != "" && |r.value.jurisdiction| == 2
    ensures r.Valid? ==> raw.fields["claimType"] == JStr(r.value.claimType) && raw.fields["jurisdiction"] == JStr(r.value.jurisdiction)
    ensures r.Invalid? ==> |r.issues| > 0
  {
    if !raw.JObj? then Invalid([""])
    else
      var o := raw.fields;
      var issues := IssueIf(RequiredString(o, "claimType", 1), "claimType") + IssueIf(RequiredCode(o, "jurisdiction"), "jurisdiction");
      if issues != [] then Invalid(issues)
      else Valid(EvidenceData(o["claimType"].s, o["jurisdiction"].s))
  }

  function EvidenceDataJson(d: EvidenceData): Json
  {
    JObj(map["claimType" := JStr(d.claimType), "jurisdiction" := JStr(d.jurisdiction)])
  }

  // ------------------------------------------------------ routes

  /** One axios request: a POST with a JSON body and an optional `X-User-Id`
      header, or a GET of path/segment with query parameters. */
  datatype BackendCall =
    | PostCall(path: string, body: Json, userId: Option<string>)
    | GetCall(path: string, segment: string, params: map<string, Json>)

  /** What the RAG service does with the request. */
  datatype Answer = Answered(reply: Reply) | NoAnswer(message: string)

  /** `res.json(...)` / `res.status(...).json(...)`, or `next(error)`. */
  datatype RouteResult = Sent(reply: Reply) | Next(error: AppError)

  datatype RouteStep = RouteStep(call: Option<BackendCall>, result: RouteResult)

  /** Make the request; a 2xx answer is relayed with status 200, anything else
      is rejected by axios and handed to `next`. */
  function Forward(call: BackendCall, answer: Answer): (r: RouteStep)
    ensures r.call == Some(call)
    ensures r.result.Sent? <==> answer.Answered? && 200 <= answer.reply.status <= 299
    ensures r.result.Sent? ==> r.result.reply == Reply(200, answer.reply.body)
    ensures answer.Answered? && r.result.Next? ==> r.result.error.Error? && r.result.error.response == Some(answer.reply)
    ensures answer.NoAnswer? ==> r.result == Next(Error(answer.message, None, None))
  {
    match answer
    case Answered(reply) =>
      if 200 <= reply.status <= 299 then RouteStep(Some(call), Sent(Reply(200, reply.body)))
      else RouteStep(Some(call), Next(Error("Request failed with status code " + NatToString(reply.status), Some(reply), None)))
    case NoAnswer(msg) => RouteStep(Some(call), Next(Error(msg, None, None)))
  }

  /** `POST /query`: validates, then forwards the parsed data with the caller's id. */
  function QueryRoute(userId: string, raw: Json, answer: Answer): (r: RouteStep)
    ensures ParseQuery(raw).Invalid? ==> r == RouteStep(None, Next(ZodError(ParseQuery(raw).issues)))
    ensures r.call.Some? <==> QueryAccepted(raw)
    ensures r.call.Some? ==> r.call.value == PostCall("/query", QueryDataJson(ParseQuery(raw).value), Some(userId))
    ensures QueryAccepted(raw) ==> r == Forward(PostCall("/query", QueryDataJson(ParseQuery(raw).value), Some(userId)), answer)
  {
    match ParseQuery(raw)
    case Invalid(issues) => RouteStep(None, Next(ZodError(issues)))
    case Valid(d) => Forward(PostCall("/query", QueryDataJson(d), Some(userId)), answer)
  }

  /** `req.query.plainLanguage !== 'false'`. */
  function PlainLanguageFlag(param: Option<string>): (r: bool)
    ensures !r <==> param == Some("false")
  {
    param != Some("false")
  }

  /** The query parameters axios sends; an undefined jurisdiction is left out. */
  function DefinitionParams(jurisdiction: Option<string>, plainLanguage: bool): map<string, Json>
  {
    var flag := map["plainLanguage" := JBool(plainLanguage)];
    if jurisdiction.Some? then flag["jurisdiction" := JStr(jurisdiction.value)] else flag
  }

  /** `GET /definition/:term`: no validation; forwards the term, the jurisdiction and the flag. */
  function DefinitionRoute(term: string, jurisdiction: Option<string>, plainParam: Option<string>, answer: Answer): (r: RouteStep)
    ensures r.call.Some? && r.call.value.GetCall? && r.call.value.segment == term
    ensures "plainLanguage" in r.call.value.params && r.call.value.params["plainLanguage"] == JBool(plainParam != Some("false"))
    ensures r.call.value.path == "/definition"
    ensures "jurisdiction" in r.call.value.params <==> jurisdiction.Some?
    ensures jurisdiction.Some? ==> r.call.value.params["jurisdiction"] == JStr(jurisdiction.value)
    ensures r == Forward(r.call.value, answer)
    ensures r.call.value.params.Keys <= {"plainLanguage", "jurisdiction"}
  {
    Forward(GetCall("/definition", term, DefinitionParams(jurisdiction, PlainLanguageFlag(plainParam))), answer)
  }

  /** `POST /compare-states`: validates, then forwards the parsed data without a user id. */
  function CompareRoute(raw: Json, answer: Answer): (r: RouteStep)
    ensures ParseComparison(raw).Invalid? ==> r == RouteStep(None, Next(ZodError(ParseComparison(raw).issues)))
    ensures r.call.Some? <==> ComparisonAccepted(raw)
    ensures r.call.Some? ==> r.call.value == PostCall("/compare-states", ComparisonDataJson(ParseComparison(raw).value), None)
    ensures ComparisonAccepted(raw) ==> r == Forward(PostCall("/compare-states", ComparisonDataJson(ParseComparison(raw).value), None), answer)
  {
    match ParseComparison(raw)
    case Invalid(issues) => RouteStep(None, Next(ZodError(issues)))
    case Valid(d) => Forward(PostCall("/compare-states", ComparisonDataJson(d), None), answer)
  }

  /** `GET /procedure/:type`: a missing or empty jurisdiction is answered 400 without a request. */
  function ProcedureRoute(procedureType: string, jurisdiction: Option<string>, answer: Answer): (r: RouteStep)
    ensures !Present(jurisdiction) ==> r == RouteStep(None, Sent(Reply(400, ErrorObject("Jurisdiction is required"))))
    ensures Present(jurisdiction) ==> r.call == Some(GetCall("/procedure", procedureType, map["jurisdiction" := JStr(jurisdiction.value)]))
    ensures Present(jurisdiction) ==> r == Forward(r.call.value, answer)
  {
    if !Present(jurisdiction) then RouteStep(None, Sent(Reply(400, ErrorObject("Jurisdiction is required"))))
    else Forward(GetCall("/procedure", procedureType, map["jurisdiction" := JStr(jurisdiction.value)]), answer)
  }

  /** `POST /evidence`: validates, then forwards the parsed data. */
  function EvidenceRoute(raw: Json, answer: Answer): (r: RouteStep)
    ensures ParseEvidence(raw).Invalid? ==> r == RouteStep(None, Next(ZodError(ParseEvidence(raw).issues)))
    ensures r.call.Some? <==> EvidenceAccepted(raw)
    ensures r.call.Some? ==> r.call.value == PostCall("/evidence", EvidenceDataJson(ParseEvidence(raw).value), None)
    ensures EvidenceAccepted(raw) ==> r == Forward(PostCall("/evidence", EvidenceDataJson(ParseEvidence(raw).value), None), answer)
  {
    match ParseEvidence(raw)
    case Invalid(issues) => RouteStep(None, Next(ZodError(issues)))
    case Valid(d) => Forward(PostCall("/evidence", EvidenceDataJson(d), None), answer)
  }

  /** What the client finally receives: the route's own reply, or the error middleware's. */
  function Respond(step: RouteStep, nodeEnv: Option<string>): Reply
  {
    match step.result
    case Sent(reply) => reply
    case Next(e) => Handle(e, nodeEnv)
  }

  /** A body the query schema refuses is answered 400 "Validation error" and nothing is sent upstream. */
  lemma InvalidQueryIs400(userId: string, raw: Json, answer: Answer, nodeEnv: Option<string>)
    requires !QueryAccepted(raw)
    ensures QueryRoute(userId, raw, answer).call.None?
    ensures Respond(QueryRoute(userId, raw, answer), nodeEnv).status == 400
    ensures Respond(QueryRoute(userId, raw, answer), nodeEnv).body.fields["error"] == JStr("Validation error")
  {
  }

  /** An upstream failure reaches the client with the upstream's own status. */
  lemma UpstreamStatusMirrored(userId: string, raw: Json, reply: Reply, nodeEnv: Option<string>)
    requires QueryAccepted(raw)
    requires !(200 <= reply.status <= 299)
    ensures Respond(QueryRoute(userId, raw, Answered(reply)), nodeEnv).status == reply.status
  {
  }

  /** A request the RAG service never answers reaches the client as a 500, on every route. */
  lemma UnreachableUpstreamIs500(call: BackendCall, message: string, nodeEnv: Option<string>)
    ensures Respond(Forward(call, NoAnswer(message)), nodeEnv).status == 500
    ensures Respond(Forward(call, NoAnswer(message)), nodeEnv).body.fields["error"] == JStr("Internal server error")
  {
  }

  /** The definition route's flag and the definition schema agree on the default:
      both are true unless "false" is given explicitly. */
  lemma PlainLanguageDefaultsToTrue(term: string)
    ensures PlainLanguageFlag(None)
    ensures ParseDefinition(JObj(map["term" := JStr(term)])).Valid? ==>
      ParseDefinition(JObj(map["term" := JStr(term)])).value.plainLanguage
  {
  }
}
