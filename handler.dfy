/** The worker's `fetch` handler (lines 32-124): method check, parameter
    normalisation and validation, cache lookup, upstream fetch and
    classification, stale fallback, and the one cache write. */
module Handler {
  import opened Wrappers
  import opened Symbols
  import opened CacheKeys
  import opened Cors
  import opened Upstream
  import opened Headers

  /** The parts of an incoming request the handler reads: the method, the
      `Origin` header, and the `symbols` and `refresh` query parameters. */
  datatype Request = Request(httpMethod: string, origin: Option<string>, symbols: Option<string>, refresh: Option<string>)

  /** What `fetch(upstreamUrl)` followed by `text()` yields: the provider's
      reply, or a rejected promise (network failure). */
  datatype Fetched = Answered(reply: Reply) | NetworkFailure

  /** A response stored in the cache: its body, its status and its headers. */
  datatype Entry = Entry(body: string, status: int, headers: HeaderList)

  /** A response of the worker: status, body and headers. */
  datatype Response = Response(status: int, body: string, headers: HeaderList)

  /** The handler either returns a response or throws. */
  datatype Result = Returned(response: Response) | Threw

  /** A handled request: its result, the cache afterwards, and the symbol
      lists sent to the provider (none or one). */
  datatype Outcome = Outcome(result: Result, cache: map<string, Entry>, upstreamRequests: seq<string>)

  /** The default type of a response built from a string body without one. */
  const TextPlain: string := "text/plain;charset=UTF-8"
  const Json: string := "application/json"
  const MethodNotAllowedBody: string := "Method Not Allowed"
  const InvalidSymbolsBody: string := "{\"error\":\"Invalid symbols\"}"
  const UpstreamFailedBody: string := "{\"error\":\"Upstream limited or error; try later\"}"
  const StaleNotice: string := "Upstream limited/error; served cached data"

  /** The headers of a response with a string body and no `Content-Type` of
      its own: the CORS headers, then the default type. */
  function PlainHeaders(cors: CorsHeaders): HeaderList {
    FromRecord(CorsRecord(cors) + [("Content-Type", TextPlain)])
  }

  /** The headers of a JSON error response: the type, then the CORS headers. */
  function JsonHeaders(cors: CorsHeaders): HeaderList {
    FromRecord([("Content-Type", Json)] + CorsRecord(cors))
  }

  /** A stored response served again, with the current CORS headers, the HIT
      marker and the notice, if any, set over the stored headers. */
  function Served(e: Entry, cors: CorsHeaders, notice: Option<string>): Response {
    Response(e.status, e.body, HitHeaders(e.headers, cors, notice))
  }

  /** The status of the failure response: the provider's 429 passed through,
      504 for every other failure. */
  function FailureStatus(upstreamStatus: int): (s: int)
    ensures s == 429 || s == 504
    ensures s == 429 <==> upstreamStatus == 429
  {
    if upstreamStatus == 429 then 429 else 504
  }

  /** The decision the handler makes for one request, given the cache as it is
      and what the provider would answer if asked. */
  function Handle(req: Request, cache: map<string, Entry>, upstream: Fetched): Outcome {
    var cors := CorsFor(req.origin);
    if req.httpMethod == "OPTIONS" then
      Outcome(Returned(Response(200, "", PlainHeaders(cors))), cache, [])
    else if req.httpMethod != "GET" then
      Outcome(Returned(Response(405, MethodNotAllowedBody, PlainHeaders(cors))), cache, [])
    else
      var csv := NormaliseSymbols(req.symbols);
      if !SymbolReTest(csv) then
        Outcome(Returned(Response(400, InvalidSymbolsBody, JsonHeaders(cors))), cache, [])
      else
        var key := CacheKey(csv);
        if key in cache && !RefreshRequested(req.refresh) then
          Outcome(Returned(Served(cache[key], cors, None)), cache, [])
        else
          match upstream
          case NetworkFailure => Outcome(Threw, cache, [csv])
          case Answered(reply) =>
            if !IsProviderError(reply) then
              Outcome(Returned(Response(reply.status, reply.body, StoredHeaders(cors))),
                      cache[key := Entry(reply.body, reply.status, StoredHeaders(cors))], [csv])
            else if key in cache then
              Outcome(Returned(Served(cache[key], cors, Some(StaleNotice))), cache, [csv])
            else
              Outcome(Returned(Response(FailureStatus(reply.status), UpstreamFailedBody, JsonHeaders(cors))),
                      cache, [csv])
  }

  /** Every stored response was trusted by the classification, so its status
      is 2xx, and none carries the stale notice. */
  ghost predicate OnlyTrusted(cache: map<string, Entry>) {
    forall k :: k in cache ==> IsOkStatus(cache[k].status) && Get(cache[k].headers, NoticeName) == None
  }

  /** The request reaches the cache: a GET whose symbol list passes the test. */
  predicate ReachesCache(req: Request) {
    req.httpMethod == "GET" && SymbolReTest(NormaliseSymbols(req.symbols))
  }

  /** The cache key a request that reaches the cache uses. */
  function KeyOf(req: Request): string
    requires ReachesCache(req)
  {
    CacheKey(NormaliseSymbols(req.symbols))
  }

  /** The responses built afresh carry the request's allowed origin once and
      no cache marker or notice. */
  lemma FreshHeadersRead(c: CorsHeaders)
    ensures Get(PlainHeaders(c), "Access-Control-Allow-Origin") == Some(c.allowOrigin)
    ensures Get(PlainHeaders(c), CacheMarker) == None && Get(PlainHeaders(c), NoticeName) == None
    ensures Get(JsonHeaders(c), "Access-Control-Allow-Origin") == Some(c.allowOrigin)
    ensures Get(JsonHeaders(c), CacheMarker) == None && Get(JsonHeaders(c), NoticeName) == None
  {
    NamesDiffer();
    CorsRecordReads(c);
    var plain: HeaderList := [("Content-Type", TextPlain)];
    var json: HeaderList := [("Content-Type", Json)];
    assert plain[1..] == [] && json[1..] == [];
    GetAppend(CorsRecord(c), plain, "Access-Control-Allow-Origin");
    GetAppend(CorsRecord(c), plain, CacheMarker);
    GetAppend(CorsRecord(c), plain, NoticeName);
    GetAppend(json, CorsRecord(c), "Access-Control-Allow-Origin");
    GetAppend(json, CorsRecord(c), CacheMarker);
    GetAppend(json, CorsRecord(c), NoticeName);
  }

  /** A preflight gets an empty 200 response and a request with any other
      method but GET a 405, each with the request's allowed origin and no
      cache marker; neither reads the cache nor asks the provider. */
  lemma MethodCheck(req: Request, cache: map<string, Entry>, upstream: Fetched)
    requires req.httpMethod != "GET"
    ensures var o := Handle(req, cache, upstream);
      o.cache == cache && o.upstreamRequests == [] && o.result.Returned? &&
      Get(o.result.response.headers, "Access-Control-Allow-Origin") == Some(CorsFor(req.origin).allowOrigin) &&
      Get(o.result.response.headers, CacheMarker) == None &&
      (req.httpMethod == "OPTIONS" ==> o.result.response.status == 200 && o.result.response.body == "") &&
      (req.httpMethod != "OPTIONS" ==> o.result.response.status == 405 && o.result.response.body == MethodNotAllowedBody)
  {
    FreshHeadersRead(CorsFor(req.origin));
  }

  /** A GET whose normalised symbol list fails the test gets a 400 JSON error
      without a cache marker; the cache is neither read nor written and the
      provider is not asked. */
  lemma InvalidSymbolsRejected(req: Request, cache: map<string, Entry>, upstream: Fetched)
    requires req.httpMethod == "GET" && !SymbolReTest(NormaliseSymbols(req.symbols))
    ensures var o := Handle(req, cache, upstream);
      o.cache == cache && o.upstreamRequests == [] && o.result.Returned? &&
      o.result.response.status == 400 && o.result.response.body == InvalidSymbolsBody &&
      Get(o.result.response.headers, "Access-Control-Allow-Origin") == Some(CorsFor(req.origin).allowOrigin) &&
      Get(o.result.response.headers, CacheMarker) == None
  {
    FreshHeadersRead(CorsFor(req.origin));
  }

  /** A cache hit without `refresh` serves the stored body and status, marked
      HIT once, with the current request's allowed origin and no notice; it
      asks the provider nothing and leaves the cache as it was. */
  lemma CacheHit(req: Request, cache: map<string, Entry>, upstream: Fetched)
    requires OnlyTrusted(cache)
    requires ReachesCache(req) && KeyOf(req) in cache && !RefreshRequested(req.refresh)
    ensures var o := Handle(req, cache, upstream);
      o.cache == cache && o.upstreamRequests == [] && o.result.Returned? &&
      o.result.response.body == cache[KeyOf(req)].body &&
      o.result.response.status == cache[KeyOf(req)].status &&
      Get(o.result.response.headers, CacheMarker) == Some("HIT") &&
      Get(o.result.response.headers, "Access-Control-Allow-Origin") == Some(CorsFor(req.origin).allowOrigin) &&
      Get(o.result.response.headers, NoticeName) == None
  {
    HitHeadersSingleValued(cache[KeyOf(req)].headers, CorsFor(req.origin), None);
  }

  /** A miss, or a forced refresh, asks the provider exactly once, for the
      normalised symbol list. */
  lemma MissAsksProvider(req: Request, cache: map<string, Entry>, upstream: Fetched)
    requires ReachesCache(req) && (KeyOf(req) !in cache || RefreshRequested(req.refresh))
    ensures Handle(req, cache, upstream).upstreamRequests == [NormaliseSymbols(req.symbols)]
  {
  }

  /** A trusted reply is stored under the request's key, replacing any older
      entry, and returned marked MISS with the very body, status and headers
      stored; no other key changes. */
  lemma FreshReplyStored(req: Request, cache: map<string, Entry>, reply: Reply)
    requires ReachesCache(req) && (KeyOf(req) !in cache || RefreshRequested(req.refresh))
    requires !IsProviderError(reply)
    ensures var o := Handle(req, cache, Answered(reply));
      KeyOf(req) in o.cache && o.result.Returned? &&
      o.cache[KeyOf(req)].body == reply.body && o.cache[KeyOf(req)].status == reply.status &&
      o.result.response == Response(reply.status, reply.body, o.cache[KeyOf(req)].headers) &&
      Get(o.result.response.headers, CacheMarker) == Some("MISS") &&
      Get(o.result.response.headers, "Access-Control-Allow-Origin") == Some(CorsFor(req.origin).allowOrigin) &&
      (forall k :: k != KeyOf(req) ==> (k in o.cache <==> k in cache) && (k in cache ==> o.cache[k] == cache[k]))
  {
    StoredHeadersRead(CorsFor(req.origin));
  }

  /** An untrusted reply with an entry present, a forced refresh included,
      serves that entry's body and status marked HIT with the stale notice and
      the current allowed origin, and leaves the cache as it was. */
  lemma StaleFallback(req: Request, cache: map<string, Entry>, reply: Reply)
    requires ReachesCache(req) && KeyOf(req) in cache && RefreshRequested(req.refresh)
    requires IsProviderError(reply)
    ensures var o := Handle(req, cache, Answered(reply));
      o.cache == cache && o.result.Returned? &&
      o.result.response.body == cache[KeyOf(req)].body &&
      o.result.response.status == cache[KeyOf(req)].status &&
      Get(o.result.response.headers, CacheMarker) == Some("HIT") &&
      Get(o.result.response.headers, NoticeName) == Some(StaleNotice) &&
      Get(o.result.response.headers, "Access-Control-Allow-Origin") == Some(CorsFor(req.origin).allowOrigin)
  {
    HitHeadersSingleValued(cache[KeyOf(req)].headers, CorsFor(req.origin), Some(StaleNotice));
  }

  /** An untrusted reply with no entry present returns 429 when the provider
      said 429 and 504 otherwise, without a cache marker, and stores nothing. */
  lemma FailureNotCached(req: Request, cache: map<string, Entry>, reply: Reply)
    requires ReachesCache(req) && KeyOf(req) !in cache
    requires IsProviderError(reply)
    ensures var o := Handle(req, cache, Answered(reply));
      o.cache == cache && KeyOf(req) !in o.cache &&
      o.result.Returned? && o.result.response.body == UpstreamFailedBody &&
      o.result.response.status == (if reply.status == 429 then 429 else 504) &&
      Get(o.result.response.headers, CacheMarker) == None
  {
    FreshHeadersRead(CorsFor(req.origin));
  }

  /** A failed `fetch` makes the handler throw, even when a stored entry could
      have been served; the cache is unchanged. */
  lemma NetworkFailureThrows(req: Request, cache: map<string, Entry>)
    requires ReachesCache(req) && (KeyOf(req) !in cache || RefreshRequested(req.refresh))
    ensures var o := Handle(req, cache, NetworkFailure);
      o.result == Threw && o.cache == cache
  {
  }

  /** The cache changes only by storing a trusted reply under the request's
      key; every other outcome leaves it as it was. */
  lemma OnlyTrustedRepliesWritten(req: Request, cache: map<string, Entry>, upstream: Fetched)
    ensures var o := Handle(req, cache, upstream);
      o.cache == cache ||
      (ReachesCache(req) && upstream.Answered? && !IsProviderError(upstream.reply) &&
       o.cache == cache[KeyOf(req) := Entry(upstream.reply.body, upstream.reply.status, StoredHeaders(CorsFor(req.origin)))])
  {
  }

  /** The provider is asked at most once, and only for the normalised list. */
  lemma AtMostOneUpstreamRequest(req: Request, cache: map<string, Entry>, upstream: Fetched)
    ensures var o := Handle(req, cache, upstream);
      |o.upstreamRequests| <= 1 &&
      (o.upstreamRequests != [] ==> ReachesCache(req) && o.upstreamRequests == [NormaliseSymbols(req.symbols)])
  {
  }

  /** No untrusted reply ever reaches the cache: if every stored status is 2xx
      and no stored response carries the notice before a request, the same
      holds after it. */
  lemma StoresOnlyTrusted(req: Request, cache: map<string, Entry>, upstream: Fetched)
    requires OnlyTrusted(cache)
    ensures OnlyTrusted(Handle(req, cache, upstream).cache)
  {
    OnlyTrustedRepliesWritten(req, cache, upstream);
    StoredHeadersRead(CorsFor(req.origin));
  }

  /** After a fresh reply is stored, a second request for the same normalised
      list without `refresh` (whatever the case it is spelled in) is a hit:
      the same body and status, marked HIT only, with the second requester's
      allowed origin and no provider request. The key ignores `refresh` and
      the spelling of the list. */
  lemma SecondRequestHits(req1: Request, req2: Request, cache: map<string, Entry>, reply: Reply, later: Fetched)
    requires OnlyTrusted(cache)
    requires ReachesCache(req1) && (KeyOf(req1) !in cache || RefreshRequested(req1.refresh))
    requires !IsProviderError(reply)
    requires req2.httpMethod == "GET" && NormaliseSymbols(req2.symbols) == NormaliseSymbols(req1.symbols)
    requires !RefreshRequested(req2.refresh)
    ensures var o1 := Handle(req1, cache, Answered(reply));
      var o2 := Handle(req2, o1.cache, later);
      o2.cache == o1.cache && o2.upstreamRequests == [] &&
      o2.result.Returned? && o1.result.Returned? &&
      o2.result.response.body == o1.result.response.body == reply.body &&
      o2.result.response.status == o1.result.response.status == reply.status &&
      Get(o2.result.response.headers, CacheMarker) == Some("HIT") &&
      Get(o2.result.response.headers, "Access-Control-Allow-Origin") == Some(CorsFor(req2.origin).allowOrigin)
  {
    FreshReplyStored(req1, cache, reply);
    StoresOnlyTrusted(req1, cache, Answered(reply));
    CacheHit(req2, Handle(req1, cache, Answered(reply)).cache, later);
  }

  /** Requests for different accepted lists use different keys, so one never
      reads or overwrites the other's entry. */
  lemma DistinctListsDistinctKeys(req1: Request, req2: Request)
    requires ReachesCache(req1) && ReachesCache(req2)
    requires NormaliseSymbols(req1.symbols) != NormaliseSymbols(req2.symbols)
    ensures KeyOf(req1) != KeyOf(req2)
  {
    if KeyOf(req1) == KeyOf(req2) {
      CacheKeyInjective(NormaliseSymbols(req1.symbols), NormaliseSymbols(req2.symbols));
    }
  }

  /** The worker with its view of the `eod-cache` namespace. */
  class Worker {
    /** The cache namespace: cache key to stored response. */
    var cache: map<string, Entry>
    /** The symbol lists sent to the provider so far, oldest first. */
    ghost var upstreamRequests: seq<string>

    ghost predicate Valid()
      reads this
    {
      OnlyTrusted(cache)
    }

    /** A worker over an empty cache. */
    constructor ()
      ensures Valid() && cache == map[] && upstreamRequests == []
    {
      cache := map[];
      upstreamRequests := [];
    }

    /** Handles one request. `upstream` is what the provider answers if the
        handler asks it. */
    method Fetch(req: Request, upstream: Fetched) returns (result: Result)
      requires Valid()
      modifies this
      ensures Valid()
      ensures result == Handle(req, old(cache), upstream).result
      ensures cache == Handle(req, old(cache), upstream).cache
      ensures upstreamRequests == old(upstreamRequests) + Handle(req, old(cache), upstream).upstreamRequests
    {
      StoresOnlyTrusted(req, cache, upstream);
      var cors := CorsFor(req.origin);
      if req.httpMethod == "OPTIONS" {
        return Returned(Response(200, "", PlainHeaders(cors)));
      }
      if req.httpMethod != "GET" {
        return Returned(Response(405, MethodNotAllowedBody, PlainHeaders(cors)));
      }
      var csv := NormaliseSymbols(req.symbols);
      var refresh := RefreshRequested(req.refresh);
      if !SymbolReTest(csv) {
        return Returned(Response(400, InvalidSymbolsBody, JsonHeaders(cors)));
      }
      var key := CacheKey(csv);
      var cached := if key in cache then Some(cache[key]) else None;
      if cached.Some? && !refresh {
        return Returned(Served(cached.value, cors, None));
      }
      upstreamRequests := upstreamRequests + [csv];
      if upstream.NetworkFailure? {
        return Threw;
      }
      var reply := upstream.reply;
      var isJson := DeclaresJson(reply.contentType);
      var providerError := !IsOkStatus(reply.status);
      if isJson {
        match reply.parsed {
          case Object(truthyError) =>
            if truthyError {
              providerError := true;
            }
          case _ =>
        }
      }
      if providerError {
        if cached.Some? {
          return Returned(Served(cached.value, cors, Some(StaleNotice)));
        }
        return Returned(Response(FailureStatus(reply.status), UpstreamFailedBody, JsonHeaders(cors)));
      }
      var stored := Response(reply.status, reply.body, StoredHeaders(cors));
      cache := cache[key := Entry(reply.body, reply.status, StoredHeaders(cors))];
      return Returned(stored);
    }
  }

  /** Two requests in a row through one worker: a miss that stores a trusted
      reply and returns it marked MISS, then a hit for the same list that
      returns the same body and status marked HIT. */
  method RepeatedRequest(w: Worker, req: Request, reply: Reply, later: Fetched) returns (first: Result, second: Result)
    requires w.Valid()
    requires ReachesCache(req) && !RefreshRequested(req.refresh) && KeyOf(req) !in w.cache
    requires !IsProviderError(reply)
    modifies w
    ensures w.Valid()
    ensures w.upstreamRequests == old(w.upstreamRequests) + [NormaliseSymbols(req.symbols)]
    ensures w.cache == old(w.cache)[KeyOf(req) := Entry(reply.body, reply.status, StoredHeaders(CorsFor(req.origin)))]
    ensures first.Returned? && first.response.body == reply.body && first.response.status == reply.status
    ensures Get(first.response.headers, CacheMarker) == Some("MISS")
    ensures second.Returned? && second.response.body == first.response.body &&
      second.response.status == first.response.status
    ensures Get(second.response.headers, CacheMarker) == Some("HIT")
  {
    FreshReplyStored(req, w.cache, reply);
    SecondRequestHits(req, req, w.cache, reply, later);
    first := w.Fetch(req, Answered(reply));
    second := w.Fetch(req, later);
  }
}
