/** The three serverless legal handlers (`/api/legal/query`, `/definition`,
    `/compare-states`). Each checks the bearer header, checks its body, builds a
    cache key, serves a truthy cached value, and otherwise forwards the body to
    the RAG service and caches a successful answer with a per-endpoint TTL.

    The steps after the key is built are the same in all three, so they are
    modelled once (`Serve` specifies them, `CacheThrough` performs them). Each
    handler is a method over the `KvNamespace` object (null when no CACHE is
    bound) and is proved equal to a pure pipeline function; the properties are
    stated about those functions. */
module LegalFunctions {
  import opened Json
  import opened Text
  import opened Sorting
  import opened Kv
  import opened Http

  const QueryTtl: nat := 3600
  const DefinitionTtl: nat := 86400
  const CompareTtl: nat := 43200

  /** The `X-User-ID` sent upstream: the incoming header, or "anonymous" when it is absent or empty. */
  function ForwardedUserId(header: Option<string>): (r: string)
    ensures r != ""
    ensures Present(header) ==> r == header.value
    ensures !Present(header) ==> r == "anonymous"
  {
    OrDefault(header, "anonymous")
  }

  // ---------------------------------------------------------------- bodies

  datatype QueryBody = QueryBody(query: Option<string>, jurisdiction: Option<string>, context: Option<string>)
  datatype DefinitionBody = DefinitionBody(term: Option<string>, jurisdiction: Option<string>)
  datatype CompareBody = CompareBody(topic: Option<string>, states: Option<seq<string>>)

  /** The body sent upstream: the parsed request body, as it stands when it is sent. */
  datatype Payload =
    | QueryPayload(query: QueryBody)
    | DefinitionPayload(definition: DefinitionBody)
    | ComparePayload(compare: CompareBody)

  /** One request to the RAG service: its path, its `X-User-ID` header and its body. */
  datatype Call = Call(path: string, userId: string, payload: Payload)

  /** What the RAG service does when called: it cannot be reached (fetch throws),
      or it replies with a status and a body that may or may not decode as JSON. */
  datatype Outcome = Unreachable(message: string) | Replied(status: nat, payload: Result<Json>)

  /** `response.ok` and `await response.json()`: the data, or the message of the error thrown. */
  function Fetched(o: Outcome): (r: Result<Json>)
    ensures r.Ok? <==> o.Replied? && 200 <= o.status <= 299 && o.payload.Ok?
    ensures r.Ok? ==> r.value == o.payload.value
    ensures o.Replied? && !(200 <= o.status <= 299) ==> r == Err("RAG service error: " + NatToString(o.status))
    ensures o.Unreachable? ==> r == Err(o.message)
    ensures o.Replied? && 200 <= o.status <= 299 && o.payload.Err? ==> r == o.payload
  {
    match o
    case Unreachable(msg) => Err(msg)
    case Replied(status, payload) =>
      if !(200 <= status <= 299) then Err("RAG service error: " + NatToString(status))
      else payload
  }

  // ------------------------------------------------------------ cache keys

  /** `${prefix}:${first}:${second}`. */
  function Key(prefix: string, first: string, second: string): string
  {
    prefix + ":" + first + ":" + second
  }

  /** `query:${query}:${jurisdiction || 'all'}`. */
  function QueryKey(query: string, jurisdiction: Option<string>): (r: string)
    ensures r == "query:" + query + ":" + OrDefault(jurisdiction, "all")
  {
    Key("query", query, OrDefault(jurisdiction, "all"))
  }

  /** `definition:${term}:${jurisdiction || 'all'}`. */
  function DefinitionKey(term: string, jurisdiction: Option<string>): (r: string)
    ensures r == "definition:" + term + ":" + OrDefault(jurisdiction, "all")
  {
    Key("definition", term, OrDefault(jurisdiction, "all"))
  }

  /** `compare:${topic}:${states.sort().join(',')}`: the states are sorted first. */
  function CompareKey(topic: string, states: seq<string>): (r: string)
    ensures r == "compare:" + topic + ":" + Join(SortStrings(states), ",")
  {
    Key("compare", topic, Join(SortStrings(states), ","))
  }

  /** The text before the first ':' (all of it when there is none). */
  function UpToColon(s: string): string
  {
    if s == [] || s[0] == ':' then [] else [s[0]] + UpToColon(s[1..])
  }

  lemma {:induction false} UpToColonOfColonFree(x: string, rest: string)
    requires ':' !in x
    ensures UpToColon(x + ":" + rest) == x
  {
    if x != [] {
      assert (x + ":" + rest)[1..] == x[1..] + ":" + rest;
      UpToColonOfColonFree(x[1..], rest);
    }
  }

  /** Splitting at the first ':' recovers both halves when the left one has no ':'. */
  lemma SplitAtColon(x1: string, r1: string, x2: string, r2: string)
    requires ':' !in x1 && ':' !in x2
    requires x1 + ":" + r1 == x2 + ":" + r2
    ensures x1 == x2 && r1 == r2
  {
    var s := x1 + ":" + r1;
    UpToColonOfColonFree(x1, r1);
    UpToColonOfColonFree(x2, r2);
    assert r1 == s[|x1| + 1..] == r2;
  }

  /** Keys are not injective in general (see QueryKeysCollide), but they are
      when the prefix and the first field contain no ':'. */
  lemma KeyInjectiveWithoutColons(p1: string, a1: string, b1: string, p2: string, a2: string, b2: string)
    requires ':' !in p1 && ':' !in p2 && ':' !in a1 && ':' !in a2
    requires Key(p1, a1, b1) == Key(p2, a2, b2)
    ensures p1 == p2 && a1 == a2 && b1 == b2
  {
    assert Key(p1, a1, b1) == p1 + ":" + (a1 + ":" + b1);
    assert Key(p2, a2, b2) == p2 + ":" + (a2 + ":" + b2);
    SplitAtColon(p1, a1 + ":" + b1, p2, a2 + ":" + b2);
    SplitAtColon(a1, b1, a2, b2);
  }

  /** A query or term containing ':' can share a key with a different one. */
  lemma QueryKeysCollide()
    ensures QueryKey("a:b", Some("c")) == QueryKey("a", Some("b:c"))
  {
    assert QueryKey("a:b", Some("c")) == "query:a:b:c";
    assert QueryKey("a", Some("b:c")) == "query:a:b:c";
  }

  /** An absent, empty or literal "all" jurisdiction gives one key. */
  lemma JurisdictionDefaultsToAll(q: string, t: string)
    ensures QueryKey(q, None) == QueryKey(q, Some("")) == QueryKey(q, Some("all"))
    ensures DefinitionKey(t, None) == DefinitionKey(t, Some("")) == DefinitionKey(t, Some("all"))
  {
  }

  /** The three endpoints never share a cache entry: their prefixes differ in the first character. */
  lemma EndpointKeysDisjoint(q: string, j: Option<string>, t: string, k: Option<string>, topic: string, states: seq<string>)
    ensures QueryKey(q, j) != DefinitionKey(t, k)
    ensures QueryKey(q, j) != CompareKey(topic, states)
    ensures DefinitionKey(t, k) != CompareKey(topic, states)
  {
    assert QueryKey(q, j)[0] == 'q';
    assert DefinitionKey(t, k)[0] == 'd';
    assert CompareKey(topic, states)[0] == 'c';
  }

  /** Every order of the same states gives the same comparison key. */
  lemma CompareKeyIgnoresOrder(topic: string, s: seq<string>, t: seq<string>)
    requires multiset(s) == multiset(t)
    ensures CompareKey(topic, s) == CompareKey(topic, t)
  {
    SortIgnoresOrder(s, t);
  }

  // ------------------------------------------------------ the shared tail

  /** The cache as the handlers see it: None when no CACHE is bound. */
  type Store = Option<map<string, Entry>>

  /** `cached` is truthy: a bound cache holding a truthy value under key. */
  predicate IsHit(store: Store, key: string): (r: bool)
    ensures r <==> store.Some? && Lookup(store.value, key).Some? && Truthy(Lookup(store.value, key).value)
  {
    store.Some? && key in store.value && Truthy(store.value[key].value)
  }

  /** Everything a handler run produces: the response, the upstream request it
      made (if any) and the cache afterwards. */
  datatype Step = Step(response: Response, call: Option<Call>, store: Store)

  /** From the cache lookup on: serve a hit, or call upstream and cache a success. */
  function Serve(store: Store, key: string, ttl: nat, call: Call, outcome: Outcome): (r: Step)
    ensures r.call.None? <==> IsHit(store, key)
    ensures r.call.Some? ==> r.call == Some(call)
    ensures IsHit(store, key) ==> r.response == Response(200, store.value[key].value, Some(Hit))
    ensures !IsHit(store, key) && Fetched(outcome).Ok? ==> r.response == Response(200, Fetched(outcome).value, Some(Miss))
    ensures !IsHit(store, key) && Fetched(outcome).Err? ==> r.response == InternalError(Fetched(outcome).message)
    // only a successful upstream call on a bound cache writes, and only `key`
    ensures r.store.Some? <==> store.Some?
    ensures r.store != store ==>
      && r.call.Some? && Fetched(outcome).Ok? && store.Some?
      && r.store == Some(store.value[key := Entry(Fetched(outcome).value, ttl)])
    ensures store.Some? && r.call.Some? && Fetched(outcome).Ok? ==> key in r.store.value && r.store.value[key] == Entry(Fetched(outcome).value, ttl)
  {
    if IsHit(store, key) then Step(Response(200, store.value[key].value, Some(Hit)), None, store)
    else match Fetched(outcome)
      case Err(msg) => Step(InternalError(msg), Some(call), store)
      case Ok(data) =>
        var written := if store.Some? then Some(store.value[key := Entry(data, ttl)]) else None;
        Step(Response(200, data, Some(Miss)), Some(call), written)
  }

  /** With no CACHE bound, nothing is ever served from the cache or written to it. */
  lemma UnboundCacheNeverHits(key: string, ttl: nat, call: Call, outcome: Outcome)
    ensures Serve(None, key, ttl, call, outcome).response.cacheFlag != Some(Hit)
    ensures Serve(None, key, ttl, call, outcome).store == None
    ensures Serve(None, key, ttl, call, outcome).call == Some(call)
  {
  }

  /** A miss answered with a truthy payload makes the next lookup of the same key
      a hit that returns that payload, whatever upstream would answer then. */
  lemma MissThenHit(store: Store, key: string, ttl: nat, call: Call, outcome: Outcome, call2: Call, outcome2: Outcome)
    requires store.Some? && !IsHit(store, key)
    requires Fetched(outcome).Ok? && Truthy(Fetched(outcome).value)
    ensures var first := Serve(store, key, ttl, call, outcome);
      var second := Serve(first.store, key, ttl, call2, outcome2);
      && first.response == Response(200, Fetched(outcome).value, Some(Miss))
      && second.response == Response(200, Fetched(outcome).value, Some(Hit))
      && second.call.None?
      && second.store == first.store
  {
  }

  /** A falsy payload (0, "", false, null) is written but never served: the next
      lookup of the key misses again and calls upstream again. */
  lemma FalsyPayloadNeverHits(store: Store, key: string, ttl: nat, call: Call, outcome: Outcome, call2: Call, outcome2: Outcome)
    requires !IsHit(store, key)
    requires Fetched(outcome).Ok? && !Truthy(Fetched(outcome).value)
    ensures var first := Serve(store, key, ttl, call, outcome);
      Serve(first.store, key, ttl, call2, outcome2).call == Some(call2)
  {
  }

  // ------------------------------------------------------ the pipelines

  /** `POST /api/legal/query`. */
  function QueryPipeline(store: Store, auth: Option<string>, userHeader: Option<string>, body: Result<QueryBody>, outcome: Outcome): (r: Step)
    ensures !HasBearer(auth) ==> r == Step(Unauthorized(), None, store)
    ensures HasBearer(auth) && body.Err? ==> r == Step(InternalError(body.message), None, store)
    ensures HasBearer(auth) && body.Ok? && !Present(body.value.query) ==> r == Step(BadRequest("Query is required"), None, store)
    ensures r.call.Some? ==> r.call.value == Call("/query", ForwardedUserId(userHeader), QueryPayload(body.value))
    ensures r.store != store ==>
      && body.Ok? && Present(body.value.query) && Fetched(outcome).Ok? && store.Some?
      && r.store == Some(store.value[QueryKey(body.value.query.value, body.value.jurisdiction) := Entry(Fetched(outcome).value, QueryTtl)])
    // a valid request is served through the cache under its query key with TTL 3600
    ensures HasBearer(auth) && body.Ok? && Present(body.value.query) ==>
      r == Serve(store, QueryKey(body.value.query.value, body.value.jurisdiction), QueryTtl,
                 Call("/query", ForwardedUserId(userHeader), QueryPayload(body.value)), outcome)
  {
    if !HasBearer(auth) then Step(Unauthorized(), None, store)
    else if body.Err? then Step(InternalError(body.message), None, store)
    else if !Present(body.value.query) then Step(BadRequest("Query is required"), None, store)
    else
      var b := body.value;
      Serve(store, QueryKey(b.query.value, b.jurisdiction), QueryTtl, Call("/query", ForwardedUserId(userHeader), QueryPayload(b)), outcome)
  }

  /** `POST /api/legal/definition`. */
  function DefinitionPipeline(store: Store, auth: Option<string>, userHeader: Option<string>, body: Result<DefinitionBody>, outcome: Outcome): (r: Step)
    ensures !HasBearer(auth) ==> r == Step(Unauthorized(), None, store)
    ensures HasBearer(auth) && body.Err? ==> r == Step(InternalError(body.message), None, store)
    ensures HasBearer(auth) && body.Ok? && !Present(body.value.term) ==> r == Step(BadRequest("Term is required"), None, store)
    ensures r.call.Some? ==> r.call.value == Call("/definition", ForwardedUserId(userHeader), DefinitionPayload(body.value))
    ensures r.store != store ==>
      && body.Ok? && Present(body.value.term) && Fetched(outcome).Ok? && store.Some?
      && r.store == Some(store.value[DefinitionKey(body.value.term.value, body.value.jurisdiction) := Entry(Fetched(outcome).value, DefinitionTtl)])
    // a valid request is served through the cache under its definition key with TTL 86400
    ensures HasBearer(auth) && body.Ok? && Present(body.value.term) ==>
      r == Serve(store, DefinitionKey(body.value.term.value, body.value.jurisdiction), DefinitionTtl,
                 Call("/definition", ForwardedUserId(userHeader), DefinitionPayload(body.value)), outcome)
  {
    if !HasBearer(auth) then Step(Unauthorized(), None, store)
    else if body.Err? then Step(InternalError(body.message), None, store)
    else if !Present(body.value.term) then Step(BadRequest("Term is required"), None, store)
    else
      var b := body.value;
      Serve(store, DefinitionKey(b.term.value, b.jurisdiction), DefinitionTtl, Call("/definition", ForwardedUserId(userHeader), DefinitionPayload(b)), outcome)
  }

  /** The body check of the comparison endpoint: a truthy topic and at least two states (no upper bound). */
  predicate CompareBodyOk(b: CompareBody): (r: bool)
    ensures !r <==> !Present(b.topic) || b.states.None? || |b.states.value| < 2
  {
    Present(b.topic) && b.states.Some? && |b.states.value| >= 2
  }

  /** `POST /api/legal/compare-states`. The states are sorted in place before the
      key is built, so the body sent upstream carries them sorted. */
  function ComparePipeline(store: Store, auth: Option<string>, userHeader: Option<string>, body: Result<CompareBody>, outcome: Outcome): (r: Step)
    ensures !HasBearer(auth) ==> r == Step(Unauthorized(), None, store)
    ensures HasBearer(auth) && body.Err? ==> r == Step(InternalError(body.message), None, store)
    ensures HasBearer(auth) && body.Ok? && !CompareBodyOk(body.value) ==> r == Step(BadRequest("Topic and at least 2 states are required"), None, store)
    ensures r.call.Some? ==>
      && body.Ok? && CompareBodyOk(body.value)
      && r.call.value.path == "/compare-states"
      && r.call.value.userId == ForwardedUserId(userHeader)
      && r.call.value.payload.ComparePayload?
      && r.call.value.payload.compare.topic == body.value.topic
      && r.call.value.payload.compare.states.Some?
      && Sorted(r.call.value.payload.compare.states.value)
      && multiset(r.call.value.payload.compare.states.value) == multiset(body.value.states.value)
    ensures r.store != store ==>
      && body.Ok? && CompareBodyOk(body.value) && Fetched(outcome).Ok? && store.Some?
      && r.store == Some(store.value[CompareKey(body.value.topic.value, body.value.states.value) := Entry(Fetched(outcome).value, CompareTtl)])
    // a valid request is served through the cache under its comparison key with TTL 43200,
    // forwarding the body with its states sorted
    ensures HasBearer(auth) && body.Ok? && CompareBodyOk(body.value) ==>
      r == Serve(store, CompareKey(body.value.topic.value, body.value.states.value), CompareTtl,
                 Call("/compare-states", ForwardedUserId(userHeader),
                      ComparePayload(CompareBody(body.value.topic, Some(SortStrings(body.value.states.value))))), outcome)
  {
    if !HasBearer(auth) then Step(Unauthorized(), None, store)
    else if body.Err? then Step(InternalError(body.message), None, store)
    else if !CompareBodyOk(body.value) then Step(BadRequest("Topic and at least 2 states are required"), None, store)
    else
      var b := body.value;
      var sorted := SortStrings(b.states.value);
      Serve(store, CompareKey(b.topic.value, b.states.value), CompareTtl,
            Call("/compare-states", ForwardedUserId(userHeader), ComparePayload(CompareBody(b.topic, Some(sorted)))), outcome)
  }

  /** Two requests whose state lists are permutations of each other are
      indistinguishable: same response, same upstream request, same cache afterwards. */
  lemma ComparePipelineIgnoresOrder(store: Store, auth: Option<string>, userHeader: Option<string>, topic: Option<string>,
                                    s: seq<string>, t: seq<string>, outcome: Outcome)
    requires multiset(s) == multiset(t)
    ensures ComparePipeline(store, auth, userHeader, Ok(CompareBody(topic, Some(s))), outcome)
         == ComparePipeline(store, auth, userHeader, Ok(CompareBody(topic, Some(t))), outcome)
  {
    SortIgnoresOrder(s, t);
    assert |s| == |multiset(s)| == |multiset(t)| == |t|;
  }

  // ------------------------------------------------------ the handlers

  /** The cache binding's contents, None when unbound. */
  function StoreOf(cache: KvNamespace?): Store
    reads cache
  {
    if cache == null then None else Some(cache.entries)
  }

  /** Lookup, and on a miss the upstream call and the write-back. */
  method CacheThrough(cache: KvNamespace?, key: string, ttl: nat, call: Call, outcome: Outcome)
    returns (resp: Response, called: Option<Call>)
    modifies cache
    ensures Step(resp, called, StoreOf(cache)) == Serve(old(StoreOf(cache)), key, ttl, call, outcome)
  {
    var cached: Option<Json> := None;
    if cache != null {
      cached := cache.Get(key);
    }
    if cached.Some? && Truthy(cached.value) {
      return Response(200, cached.value, Some(Hit)), None;
    }
    called := Some(call);
    match outcome {
      case Unreachable(msg) =>
        resp := InternalError(msg);
      case Replied(status, payload) =>
        if !(200 <= status <= 299) {
          resp := InternalError("RAG service error: " + NatToString(status));
        } else if payload.Err? {
          resp := InternalError(payload.message);
        } else {
          if cache != null {
            cache.Put(key, payload.value, ttl);
          }
          resp := Response(200, payload.value, Some(Miss));
        }
    }
  }

  method HandleQuery(cache: KvNamespace?, auth: Option<string>, userHeader: Option<string>, body: Result<QueryBody>, outcome: Outcome)
    returns (resp: Response, call: Option<Call>)
    modifies cache
    ensures Step(resp, call, StoreOf(cache)) == QueryPipeline(old(StoreOf(cache)), auth, userHeader, body, outcome)
  {
    if !HasBearer(auth) {
      return Unauthorized(), None;
    }
    if body.Err? {
      return InternalError(body.message), None;
    }
    var b := body.value;
    if !Present(b.query) {
      return BadRequest("Query is required"), None;
    }
    var key := QueryKey(b.query.value, b.jurisdiction);
    resp, call := CacheThrough(cache, key, QueryTtl, Call("/query", ForwardedUserId(userHeader), QueryPayload(b)), outcome);
  }

  method HandleDefinition(cache: KvNamespace?, auth: Option<string>, userHeader: Option<string>, body: Result<DefinitionBody>, outcome: Outcome)
    returns (resp: Response, call: Option<Call>)
    modifies cache
    ensures Step(resp, call, StoreOf(cache)) == DefinitionPipeline(old(StoreOf(cache)), auth, userHeader, body, outcome)
  {
    if !HasBearer(auth) {
      return Unauthorized(), None;
    }
    if body.Err? {
      return InternalError(body.message), None;
    }
    var b := body.value;
    if !Present(b.term) {
      return BadRequest("Term is required"), None;
    }
    var key := DefinitionKey(b.term.value, b.jurisdiction);
    resp, call := CacheThrough(cache, key, DefinitionTtl, Call("/definition", ForwardedUserId(userHeader), DefinitionPayload(b)), outcome);
  }

  method HandleCompareStates(cache: KvNamespace?, auth: Option<string>, userHeader: Option<string>, body: Result<CompareBody>, outcome: Outcome)
    returns (resp: Response, call: Option<Call>)
    modifies cache
    ensures Step(resp, call, StoreOf(cache)) == ComparePipeline(old(StoreOf(cache)), auth, userHeader, body, outcome)
  {
    if !HasBearer(auth) {
      return Unauthorized(), None;
    }
    if body.Err? {
      return InternalError(body.message), None;
    }
    var b := body.value;
    if !CompareBodyOk(b) {
      return BadRequest("Topic and at least 2 states are required"), None;
    }
    var given := b.states.value;
    var states := new string[|given|](i requires 0 <= i < |given| => given[i]);
    assert states[..] == given;
    SortInPlace(states);
    var key := "compare:" + b.topic.value + ":" + Join(states[..], ",");
    assert key == CompareKey(b.topic.value, given);
    resp, call := CacheThrough(cache, key, CompareTtl,
                               Call("/compare-states", ForwardedUserId(userHeader), ComparePayload(CompareBody(b.topic, Some(states[..])))), outcome);
  }
}
