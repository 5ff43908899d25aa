# BreakUp-AI request handling, modelled in Dafny

BreakUp-AI is a legal-information web app. Three server tiers handle its requests:

- **Serverless legal handlers** (`/api/legal/query`, `/definition`, `/compare-states`). Each one:
  1. checks for a `Bearer` authorization header;
  2. checks its JSON body;
  3. builds a cache key from the request;
  4. answers from a key-value cache when the cache holds a truthy value;
  5. otherwise forwards the body to the RAG service and caches a successful answer with a TTL fixed per endpoint.
- **The serverless profile handler** (`/api/user/profile`). GET reads the caller's row of `user_profiles`, or returns a default profile. PUT upserts the caller's preferences.
- **The Express backend router** (`/api/legal/*`). It validates bodies with zod schemas, forwards them with axios, and passes failures to an error middleware that picks the status code.
- **The FastAPI RAG service.** It has pydantic request models, and its endpoints currently return fixed mock answers built from the request.

The project models all four.

| file | module | what it holds |
|---|---|---|
| `json.dfy` | `Json` | JSON values, `Option`/`Result`, JavaScript truthiness, `x \|\| d` |
| `text.dfy` | `Text` | `startsWith`, `join`, decimal rendering of a status code |
| `sorting.dfy` | `Sorting` | the default `Array.prototype.sort` order on strings; `SortStrings` (the specification) and `SortInPlace` (an in-place array sort proved equal to it) |
| `kv.dfy` | `Kv` | the KV namespace as a class over a map of entries (value plus recorded TTL) |
| `http.dfy` | `Http` | the bearer pre-check and the JSON responses the handlers build |
| `legal_functions.dfy` | `LegalFunctions` | cache keys, the shared cache-through tail, and the three legal handlers |
| `profile.dfy` | `Profile` | the profile table as a class over a map of rows; GET and PUT |
| `error_handler.dfy` | `ErrorHandler` | the Express error middleware |
| `backend_routes.dfy` | `BackendRoutes` | the zod schemas over raw JSON and the five routes |
| `rag_service.dfy` | `RagService` | the pydantic constraints, the mock response builders, and lemmas comparing the tiers |

Each legal handler is a method that works step by step over the `KvNamespace` object. `null` stands for an unbound `CACHE`. Each method is proved equal to a pure pipeline function of the old cache contents. That function returns the response, the upstream request made (if any) and the new cache contents. The handlers' properties are proved about those pipeline functions:

- the early exits;
- hit and miss behaviour;
- "a failed call never writes";
- "only the key is written".

The compare-states handler sorts an array of states in place, as the source does. The upstream service is an input (`Outcome`):

- it cannot be reached;
- or it replies with a status and a body that may fail to decode.

The Express routes and the RAG service are pure in the source, so they are modelled as functions and predicates over raw JSON.

## Model

| member | source | states |
|---|---|---|
| Json.OrDefault | functions/api/legal/query.ts:42 | `x \|\| d` on an optional string: the value when it is present and non-empty, the default otherwise |
| Json.Strings | backend/src/routes/legal.ts:13 | the strings of a JSON array of strings, item for item and of the same length |
| Json.StringArray | backend/src/routes/legal.ts:13 | a list of strings as a JSON array with the same items in the same order |
| Json.StringsOfStringArray | backend/src/routes/legal.ts:13 | reading the strings back out of a string array gives the original list (round trip) |
| Text.StartsWithIffConcat | functions/api/legal/query.ts:24 | `startsWith(prefix)` holds exactly when the string is the prefix followed by something |
| Text.JoinContains | functions/api/legal/compare-states.ts:42 | every item of a list occurs in its `join` |
| Text.NatToString | functions/api/legal/query.ts:65 | the status in "RAG service error: <status>" is a non-empty run of decimal digits |
| Text.DecimalRoundTrip | functions/api/legal/query.ts:65 | reading the rendered status back gives the status (the rendering is lossless) |
| Sorting.LeqTotal | functions/api/legal/compare-states.ts:42 | the default sort order is total |
| Sorting.LeqReflexive | functions/api/legal/compare-states.ts:42 | the default sort order is reflexive |
| Sorting.LeqAntisymmetric | functions/api/legal/compare-states.ts:42 | the default sort order is antisymmetric |
| Sorting.LeqTransitive | functions/api/legal/compare-states.ts:42 | the default sort order is transitive |
| Sorting.Insert | functions/api/legal/compare-states.ts:42 | inserting into a sorted list keeps it sorted and adds exactly the one element |
| Sorting.SortStrings | functions/api/legal/compare-states.ts:42 | `states.sort()` yields a sorted permutation of the states |
| Sorting.HeadIsLeast | functions/api/legal/compare-states.ts:42 | the first element of a sorted list is at most every element of it |
| Sorting.SortedUnique | functions/api/legal/compare-states.ts:42 | two sorted lists with the same elements are equal |
| Sorting.SortIgnoresOrder | functions/api/legal/compare-states.ts:42 | every permutation of the states sorts to the same list |
| Sorting.SwapDown | functions/api/legal/compare-states.ts:42 | exchanging two neighbours changes nothing else and keeps the multiset |
| Sorting.InsertStep | functions/api/legal/compare-states.ts:42 | one insertion step extends the sorted prefix by one and keeps the multiset |
| Sorting.SortInPlace | functions/api/legal/compare-states.ts:42 | the in-place sort leaves the array equal to the sorted permutation of its old contents |
| Kv.Lookup | functions/api/legal/query.ts:43 | `get(key, 'json')` returns a value exactly when the key is stored, and then the stored value |
| Kv.KvNamespace.constructor | functions/api/legal/query.ts:43 | a namespace starts with the given entries |
| Kv.KvNamespace.Get | functions/api/legal/query.ts:43 | reading a key returns exactly what `Lookup` gives for the current entries, and changes nothing |
| Kv.KvNamespace.Put | functions/api/legal/query.ts:72-74 | writing replaces the entry under the key, with its TTL, and no other |
| Http.HasBearer | functions/api/legal/query.ts:24 | the pre-check passes exactly when the header is present and is "Bearer " followed by anything |
| Http.HasBearerIffSchemePrefix | functions/api/legal/query.ts:23-29 | the pre-check accepts exactly the headers "Bearer " + token and rejects "bearer " and "BEARER " |
| LegalFunctions.ForwardedUserId | functions/api/legal/query.ts:59 | the `X-User-ID` forwarded is the incoming header, or "anonymous" when it is absent or empty |
| LegalFunctions.Fetched | functions/api/legal/query.ts:55-68 | only a 2xx reply with a decodable body yields data. A non-2xx status gives "RAG service error: <status>". An unreachable upstream or an undecodable body gives the thrown error's own message |
| LegalFunctions.QueryKey | functions/api/legal/query.ts:42 | the query key is `query:` + query + `:` + (jurisdiction, or "all" when it is absent or empty) |
| LegalFunctions.DefinitionKey | functions/api/legal/definition.ts:40 | the definition key is `definition:` + term + `:` + (jurisdiction, or "all" when it is absent or empty) |
| LegalFunctions.CompareKey | functions/api/legal/compare-states.ts:42 | the comparison key is `compare:` + topic + `:` + the sorted states joined by "," |
| LegalFunctions.UpToColonOfColonFree | functions/api/legal/query.ts:42 | the text before the first ':' of `x:rest` is x when x has no ':' |
| LegalFunctions.SplitAtColon | functions/api/legal/query.ts:42 | `x1:r1 == x2:r2` with colon-free x1 and x2 forces x1 == x2 and r1 == r2 |
| LegalFunctions.KeyInjectiveWithoutColons | functions/api/legal/query.ts:42 | two keys are equal only for equal parts when the prefix and the first field have no ':' |
| LegalFunctions.QueryKeysCollide | functions/api/legal/query.ts:42 | a query containing ':' can share its cache key with a different query and jurisdiction |
| LegalFunctions.JurisdictionDefaultsToAll | functions/api/legal/query.ts:42 | an absent, empty or "all" jurisdiction gives the same query key, and likewise for definition keys |
| LegalFunctions.EndpointKeysDisjoint | functions/api/legal/definition.ts:40 | keys of the query, definition and comparison endpoints never coincide |
| LegalFunctions.CompareKeyIgnoresOrder | functions/api/legal/compare-states.ts:42 | every permutation of the states gives the same comparison key |
| LegalFunctions.IsHit | functions/api/legal/query.ts:43-45 | a hit is a bound cache whose `get` of the key returns a truthy value |
| LegalFunctions.Serve | functions/api/legal/query.ts:43-82 | a truthy cached value is served with X-Cache HIT and no upstream call. Otherwise the call is made: success answers with the data and X-Cache MISS; failure answers 500 with the error message. The cache changes only on success with a bound cache, and then only at the key, with the TTL |
| LegalFunctions.UnboundCacheNeverHits | functions/api/legal/query.ts:43-75 | with no CACHE bound, nothing is served from or written to the cache and upstream is always called |
| LegalFunctions.MissThenHit | functions/api/legal/query.ts:43-82 | after a miss answered with truthy data, the next request for the key is a hit with that data and makes no upstream call |
| LegalFunctions.FalsyPayloadNeverHits | functions/api/legal/query.ts:45 | a cached falsy value (0, "", false, null) is never served: the next request calls upstream again |
| LegalFunctions.QueryPipeline | functions/api/legal/query.ts:18-96 | a 401 without the bearer prefix, a 500 for an unparsable body and a 400 "Query is required" all come with no upstream call and the cache unchanged. A valid request is served by `Serve` under its query key with TTL 3600: a hit answers X-Cache HIT with no call; a miss forwards the body to /query with the forwarded user id, and a success answers MISS and writes the key with TTL 3600. A changed cache is the old one with only that key set |
| LegalFunctions.DefinitionPipeline | functions/api/legal/definition.ts:17-94 | the same as the query pipeline with "Term is required", /definition, the definition key and TTL 86400; a valid request is served by `Serve` under that key and TTL |
| LegalFunctions.ComparePipeline | functions/api/legal/compare-states.ts:16-96 | a 401, 500 or 400 "Topic and at least 2 states are required" comes with no call and the cache unchanged. A valid request is served by `Serve` under the comparison key with TTL 43200, and the forwarded body carries the same topic and the states sorted (a sorted permutation). A changed cache is the old one with only that key set |
| LegalFunctions.CompareBodyOk | functions/api/legal/compare-states.ts:31 | the body is refused exactly when the topic is missing or empty, the states are missing, or fewer than 2 states are given |
| LegalFunctions.ComparePipelineIgnoresOrder | functions/api/legal/compare-states.ts:42-61 | two requests whose states are permutations of each other give the same response, upstream request and cache |
| LegalFunctions.CacheThrough | functions/api/legal/query.ts:43-82 | the lookup, call and write-back performed on the namespace object do exactly what `Serve` specifies |
| LegalFunctions.HandleQuery | functions/api/legal/query.ts:18-96 | the handler's response, upstream request and new cache are those of `QueryPipeline` on the old cache |
| LegalFunctions.HandleDefinition | functions/api/legal/definition.ts:17-94 | the handler's response, upstream request and new cache are those of `DefinitionPipeline` on the old cache |
| LegalFunctions.HandleCompareStates | functions/api/legal/compare-states.ts:16-96 | the handler, which sorts the states array in place, gives the response, upstream request and new cache of `ComparePipeline` |
| Profile.ProfileTable.constructor | functions/api/user/profile.ts:41-46 | a table starts with the given rows |
| Profile.Upserted | functions/api/user/profile.ts:103-111 | the upsert inserts `{user_id, preferences}` for a new user. For an existing row it sets the preferences, keeps every other column and adds no column. All other rows are unchanged |
| Profile.UpsertIdempotent | functions/api/user/profile.ts:103-111 | writing the same preferences twice equals writing them once |
| Profile.UpsertLastWriteWins | functions/api/user/profile.ts:103-111 | of two writes for one user the later wins |
| Profile.UpsertsCommute | functions/api/user/profile.ts:103-111 | writes for different users commute |
| Profile.GetProfile | functions/api/user/profile.ts:20-64 | 401 without the bearer prefix; 400 "User ID missing" without a user id; otherwise the stored row verbatim, or `{userId, preferences: {}}` when there is no row or no database |
| Profile.PutProfile | functions/api/user/profile.ts:80-131 | 401 first. A malformed body then gives 500 even without a user id. Then 400 "User ID missing", also for a `null` body. A `null` body with a user id gives 500 (the TypeError of reading `preferences`). Otherwise `{success: true, userId, preferences}`. The table becomes the upsert exactly when the database is bound and the preferences are truthy, and is unchanged otherwise |
| ErrorHandler.ExternalError | backend/src/middleware/errorHandler.ts:25 | the upstream's `error` field when it is truthy, and "External service error" otherwise |
| ErrorHandler.Handle | backend/src/middleware/errorHandler.ts:14-40 | tried in order: a zod error gives 400 "Validation error" with details; an upstream response gives its status; status 401 gives 401; anything else gives 500 with a body of only `error` and, in development only, `message`. `details` appears only for zod errors |
| ErrorHandler.HandleStatuses | backend/src/middleware/errorHandler.ts:14-40 | the middleware answers 400, 401, 500 or the upstream's own status |
| BackendRoutes.IssueIf | backend/src/routes/legal.ts:10-15 | a field produces an issue exactly when its check fails |
| BackendRoutes.ParseQuery | backend/src/routes/legal.ts:10-15 | the query schema accepts exactly: a question of length at least 1, an optional 2-character jurisdiction, an optional string list and an optional number in [1, 20]. Every parsed field is the body's own (question, jurisdiction, documentTypes, maxResults), and maxResults defaults to 5. A refusal lists at least one issue |
| BackendRoutes.ParseDefinition | backend/src/routes/legal.ts:17-21 | the definition schema accepts a non-empty term, an optional 2-character jurisdiction and an optional boolean. The term and jurisdiction are the body's own. plainLanguage is the body's, defaulting to true |
| BackendRoutes.ParseComparison | backend/src/routes/legal.ts:23-26 | the comparison schema accepts a non-empty concept and 2 to 5 states, each of 2 characters. The concept and the states, in order, are the body's own |
| BackendRoutes.ParseEvidence | backend/src/routes/legal.ts:28-31 | the evidence schema accepts a non-empty claim type and a jurisdiction of exactly 2 characters. Both are the body's own |
| BackendRoutes.Forward | backend/src/routes/legal.ts:42-57 | the request is always made. A 2xx answer is relayed as `res.json(response.data)` with status 200. A non-2xx answer reaches `next` carrying the upstream response. No answer at all reaches `next` as a plain error with the network message |
| BackendRoutes.QueryRoute | backend/src/routes/legal.ts:34-59 | a refused body goes to `next` as a zod error with no request. An accepted body is posted to /query with the caller's id as X-User-Id, and the client gets what `Forward` relays |
| BackendRoutes.PlainLanguageFlag | backend/src/routes/legal.ts:66 | plainLanguage is false exactly when the query parameter is the string "false" |
| BackendRoutes.DefinitionRoute | backend/src/routes/legal.ts:62-79 | a GET of /definition with the term as the path segment. plainLanguage is always sent. The jurisdiction is sent, with its own value, exactly when given. No other parameter is sent. The client gets what `Forward` relays |
| BackendRoutes.CompareRoute | backend/src/routes/legal.ts:82-95 | a refused body goes to `next` with no request. An accepted one is posted to /compare-states, and the client gets what `Forward` relays |
| BackendRoutes.ProcedureRoute | backend/src/routes/legal.ts:98-118 | a missing or empty jurisdiction is answered 400 "Jurisdiction is required" with no request. Otherwise the type and the jurisdiction are forwarded, and the client gets what `Forward` relays |
| BackendRoutes.EvidenceRoute | backend/src/routes/legal.ts:121-134 | a refused body goes to `next` with no request. An accepted one is posted to /evidence, and the client gets what `Forward` relays |
| BackendRoutes.InvalidQueryIs400 | backend/src/routes/legal.ts:36-58 | a body the query schema refuses ends as 400 "Validation error" with nothing sent upstream |
| BackendRoutes.UpstreamStatusMirrored | backend/src/routes/legal.ts:42-57 | an upstream failure reaches the client with the upstream's own status |
| BackendRoutes.UnreachableUpstreamIs500 | backend/src/middleware/errorHandler.ts:37-40 | a request the RAG service never answers reaches the client as 500 "Internal server error", on every route |
| BackendRoutes.PlainLanguageDefaultsToTrue | backend/src/routes/legal.ts:20 | the route flag and the schema both default plainLanguage to true |
| RagService.ParseQueryRequest | rag-service/main.py:39-43 | `QueryRequest` accepts exactly: a question of length at least 1, a jurisdiction that is absent, null or `^[A-Z]{2}$`, an optional string list and a whole maxResults in [1, 20]. Every parsed field is the body's own (null read as absent), and maxResults defaults to 5 |
| RagService.ParseStateComparison | rag-service/main.py:50-52 | `StateComparisonRequest` accepts a concept string and 2 to 5 state strings. The concept and the states, in order, are the body's own |
| RagService.QueryResponse | rag-service/main.py:84-113 | the question is echoed. The intent and every result carry the request jurisdiction, or "federal". sources_count equals the number of results |
| RagService.DefinitionResponse | rag-service/main.py:129-138 | the term is echoed. plain_language is null exactly when plainLanguage is false. The jurisdiction defaults to "general" |
| RagService.CompareResponse | rag-service/main.py:150-166 | states are echoed in order, comparisons has exactly one key per distinct requested state, and key_differences is one sentence with the states joined by ", " |
| RagService.KeyDifferenceNamesEveryState | rag-service/main.py:162-164 | every requested state occurs in the key_differences sentence |
| RagService.ProcedureResponse | rag-service/main.py:181-198 | echoes procedure_type and jurisdiction, with a single step numbered 1 |
| RagService.JurisdictionRulesDiffer | rag-service/main.py:41 | the backend accepts jurisdiction "ca", which the RAG service refuses. The RAG service accepts a null jurisdiction, which the backend refuses |
| RagService.ForwardedQueryAcceptedIff | backend/src/routes/legal.ts:10-15 | a query the backend accepts and forwards passes the RAG service exactly when its jurisdiction (if any) is two upper-case letters and its maxResults is whole |
| RagService.ForwardedComparisonAccepted | backend/src/routes/legal.ts:23-26 | a comparison the backend accepts and forwards always passes the RAG service's checks |
| RagService.PlainLanguageEndToEnd | rag-service/main.py:118-138 | plain_language is null in the final definition exactly when the backend's plainLanguage parameter was "false" |
| RagService.ServerlessCompareBodyRefused | functions/api/legal/compare-states.ts:55-62 | the serverless compare-states handler sends `topic` where the RAG service requires `concept`, so a body of just the fields it reads is always refused |

## Left out

- **JSON parsing and serialisation.**
  - Request bodies reach the serverless handlers already parsed, as a typed record. A parse failure is `Err(message)` and takes the catch-all 500 path.
  - Those typed records hold only string fields. A body whose `query`, `term`, `topic` or `states` has another JSON type is not modelled.
  - Object key order is not modelled.
- **Number encoding.** JSON numbers are reals. `JSON.stringify`/`JSON.parse` number round-off is not modelled.
- **Network calls.** `fetch` and axios calls are not performed. Their result is an input to the model:
  - `Outcome` for the serverless handlers;
  - `Answer` for the backend.
- **Authentication.** Clerk's `requireAuth()` and token verification are not modelled. The backend routes receive the authenticated user id as a parameter. The serverless handlers check only the "Bearer " prefix, as the source does.
- **Cache expiry and the clock.** TTL expiry and the clock are not modelled. The TTL number is recorded with each entry.
- **Database SQL.** The D1 SQL text, `updated_at`/`CURRENT_TIMESTAMP`, and the storage of `preferences` as JSON text are not modelled. A row is a map from column to value.
- **Store exceptions.** KV and D1 exceptions are not modelled. In the source, a thrown `put`, `get` or query would take the catch-all 500 path.
- **Null upstream data.** The error middleware is modelled as total. In the source, an upstream response whose `data` is null would make `axiosError.response.data.error` throw inside the middleware.
- **Pydantic lax coercions.** A numeric string for `maxResults`, or a whole float given as a number, is modelled only through the JSON number kind. The RAG service's 422 replies are `None` from the parse functions. Their body is not built.
- **URL encoding.** `encodeURIComponent` on the definition term, and the URL-encoding of query parameters, are not modelled.
- **Text encoding.** Strings are sequences of characters. JavaScript's UTF-16 code units, which `length` and the default sort compare, coincide with them only for characters in the Basic Multilingual Plane.
- **Unmodelled services and plumbing.** The RAG service's `/health` and `/evidence` mocks, logging (`logger`, `console.error`, `logQuery`), CORS and helmet are not modelled.
- ErrorHandler.Handle and BackendRoutes.ParseQuery, ParseDefinition, ParseComparison, ParseEvidence: a zod error's `details` is one field-name string per failing field (`""` for a body that is not an object). zod's `error.errors` is an array of issue objects (code, path, message), one per failing element, so `documentTypes: [1, 2]` gives two issues there and one here. The issue objects' content is not modelled.
- **Compare body checks.** The serverless compare-states handler reads only `topic` and `states`, and the model's bodies hold only those. `RagService.ServerlessCompareBodyRefused` is therefore stated for such bodies, not for bodies carrying extra fields.
