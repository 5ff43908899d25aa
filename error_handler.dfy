/** The Express error middleware: maps whatever a route passed to `next(error)`
    to an HTTP status and a JSON body, trying its four cases in order. */
module ErrorHandler {
  import opened Json

  /** An HTTP reply: a status and a JSON body. Also the shape of an upstream
      (axios) response. */
  datatype Reply = Reply(status: nat, body: Json)

  /** What reaches the middleware: a zod validation error with the paths of its
      issues, or any other error with its message and, when it has them, an
      attached upstream `response` and a numeric `status` property. */
  datatype AppError =
    | ZodError(issues: seq<string>)
    | Error(message: string, response: Option<Reply>, status: Option<int>)

  /** `response.data.error || 'External service error'`. */
  function ExternalError(data: Json): (r: Json)
    ensures data.JObj? && "error" in data.fields && Truthy(data.fields["error"]) ==> r == data.fields["error"]
    ensures r != JStr("External service error") ==> data.JObj? && "error" in data.fields && r == data.fields["error"]
    ensures Truthy(r)
  {
    if data.JObj? && "error" in data.fields && Truthy(data.fields["error"]) then data.fields["error"]
    else JStr("External service error")
  }

  /** `errorHandler(error, req, res, next)` with `process.env.NODE_ENV` as nodeEnv. */
  function Handle(e: AppError, nodeEnv: Option<string>): (r: Reply)
    ensures r.body.JObj? && "error" in r.body.fields
    // the status is chosen by the first case that applies
    ensures e.ZodError? ==> r == Reply(400, JObj(map["error" := JStr("Validation error"), "details" := StringArray(e.issues)]))
    ensures e.Error? && e.response.Some? ==>
      r == Reply(e.response.value.status, JObj(map["error" := ExternalError(e.response.value.body)]))
    ensures e.Error? && e.response.None? && e.status == Some(401) ==> r == Reply(401, ErrorObject("Unauthorized"))
    ensures e.Error? && e.response.None? && e.status != Some(401) ==>
      r.status == 500 && r.body.fields["error"] == JStr("Internal server error") && r.body.fields.Keys <= {"error", "message"}
    // details and message never leak from the wrong case
    ensures "details" in r.body.fields <==> e.ZodError?
    ensures "message" in r.body.fields <==>
      e.Error? && e.response.None? && e.status != Some(401) && nodeEnv == Some("development")
    ensures "message" in r.body.fields ==> r.body.fields["message"] == JStr(e.message)
  {
    match e
    case ZodError(issues) =>
      Reply(400, JObj(map["error" := JStr("Validation error"), "details" := StringArray(issues)]))
    case Error(message, response, status) =>
      if response.Some? then
        Reply(response.value.status, JObj(map["error" := ExternalError(response.value.body)]))
      else if status == Some(401) then
        Reply(401, ErrorObject("Unauthorized"))
      else
        var generic := map["error" := JStr("Internal server error")];
        Reply(500, JObj(if nodeEnv == Some("development") then generic["message" := JStr(message)] else generic))
  }

  /** The statuses the middleware can answer with: 400, 401, 500, or the upstream's own. */
  lemma HandleStatuses(e: AppError, nodeEnv: Option<string>)
    ensures var s := Handle(e, nodeEnv).status;
      s == 400 || s == 401 || s == 500 || (e.Error? && e.response.Some? && s == e.response.value.status)
    ensures Handle(e, nodeEnv).status == 400 && "details" in Handle(e, nodeEnv).body.fields ==> e.ZodError?
  {
  }
}
