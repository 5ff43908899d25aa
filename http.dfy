/** What the serverless handlers share: the bearer pre-check and the JSON
    responses they build. */
module Http {
  import opened Json
  import opened Text

  /** The `X-Cache` response header. */
  datatype CacheFlag = Hit | Miss

  datatype Response = Response(status: nat, body: Json, cacheFlag: Option<CacheFlag>)

  function Unauthorized(): Response
  {
    Response(401, ErrorObject("Unauthorized"), None)
  }

  function BadRequest(msg: string): Response
  {
    Response(400, ErrorObject(msg), None)
  }

  /** The catch-all: `{error: 'Internal server error', message}` with status 500. */
  function InternalError(msg: string): Response
  {
    Response(500, JObj(map["error" := JStr("Internal server error"), "message" := JStr(msg)]), None)
  }

  /** A 200 response without an `X-Cache` header. */
  function Ok200(body: Json): Response
  {
    Response(200, body, None)
  }

  /** The pre-check every handler starts with: a present header starting with
      "Bearer " (case-sensitive; the token itself is not checked). */
  predicate HasBearer(auth: Option<string>): (r: bool)
    ensures r <==> auth.Some? && exists t :: auth.value == "Bearer " + t
  {
    if auth.None? then false
    else
      StartsWithIffConcat(auth.value, "Bearer ");
      StartsWith(auth.value, "Bearer ")
  }

  /** The pre-check accepts exactly the headers of the form "Bearer " + token,
      and rejects the other capitalisations of the scheme. */
  lemma HasBearerIffSchemePrefix(auth: Option<string>, token: string)
    ensures HasBearer(auth) <==> auth.Some? && exists t :: auth.value == "Bearer " + t
    ensures !HasBearer(Some("bearer " + token)) && !HasBearer(Some("BEARER " + token))
  {
    if auth.Some? {
      StartsWithIffConcat(auth.value, "Bearer ");
    }
    assert ("bearer " + token)[0] == 'b';
    assert ("BEARER " + token)[1] == 'E';
  }
}
