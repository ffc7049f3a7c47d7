# Market-data edge worker, modelled in Dafny

`marketdata/worker.js` is an edge worker that sits in front of the Marketstack
end-of-day quotes API as a read-through cache. For each request from the
site's front end it:

1. answers a CORS preflight, or refuses any method but GET;
2. normalises the `symbols` query parameter (which defaults to `AAPL`) to upper
   case, and `refresh` to a boolean;
3. validates the symbol list against a comma-separated ticker grammar;
4. builds a cache key from the list alone and serves a stored response unless a
   refresh is forced;
5. otherwise asks the provider once and classifies its reply;
6. stores a trusted reply and returns it marked MISS, or falls back to the stored
   response with a notice, or returns a 429/504 JSON error that is never cached.

The model is split into modules that follow those parts:

- `Wrappers`: an `Option` type for the query parameters and headers that can be
  absent.
- `Text`: the three JavaScript string operations the worker uses.
  - `toUpperCase` covers ASCII, plus the characters outside ASCII whose upper
    case is made of ASCII letters (ß ı ſ and the ligatures ﬀ–ﬆ).
  - `toLowerCase` covers ASCII plus the Kelvin sign.
  - `includes` is modelled as substring occurrence.
- `Symbols`: the `SYMBOL_RE` test, written as a split on commas with a ticker
  predicate per part. It is proved equal to the `ghost` grammar "one or more
  tickers joined by commas". The module also holds the `symbols` default and
  upper-casing and the `refresh` flag.
- `CacheKeys`: `encodeURIComponent` on ASCII text and its percent-decoding
  inverse, plus the cache key built from them.
- `Cors`: the `corsHeaders` helper.
- `Upstream`: the provider's reply as the worker sees it, and the
  provider-error classification. The outcome of `JSON.parse` is an input:
  `ParseFailed | NonObject | Object(truthyError)`.
- `Headers`: a model of Fetch `Headers` lists, with case-insensitive lookup,
  `set`, and the way JavaScript objects are spread. It also holds the header
  lists the worker builds, and the finding below.
- `Handler`: the request handler.
  - `Handle` is a pure function from a request, the cache and the provider's
    answer to an outcome: the response or a thrown exception, the new cache,
    and the symbol lists sent to the provider.
  - `Worker` is the imperative version. It is a class whose `cache` field is the
    `eod-cache` namespace. Its `Fetch` method computes the provider-error flag
    step by step and writes the cache at most once. It is proved to agree with
    `Handle`.
  - The lemmas about `Handle` state each outcome of the handler.

A cache entry holds the body, the status and the header list of the stored
response. A response holds its status, body and header list.

Three behaviours of the code are worth naming, because a reader might expect
otherwise:

- `symbols=aapl` is accepted, because line 43 upper-cases the parameter before
  line 47 tests it (`Symbols.LowerCaseExamples`).
- If `await fetch` at line 73 rejects, nothing catches it, so the handler
  throws even when an entry is stored (`Handler.NetworkFailureThrows`). Only an
  answer that is classified as an error falls back to the stored entry.
- Lines 79-84 classify the answer with one boolean. The only trace of the rate
  limit is the 429 passed through at line 106 when nothing is stored
  (`Handler.FailureStatus`).

## Model

| member | source | states |
|---|---|---|
| Text.UpperChar | marketdata/worker.js:43 | The upper case of one character is one to three characters with no ASCII lower-case letter; a character outside the special table maps to its ASCII upper case |
| Text.ToUpper | marketdata/worker.js:43 | `toUpperCase`, character by character. It has no ensures of its own; `Text.ToUpperIsUpper`, `Text.ToUpperPlain`, `Text.ToUpperAppend` and `Text.ToUpperIdempotent` state its behaviour |
| Text.ToUpperIsUpper | marketdata/worker.js:43 | An upper-cased string contains no ASCII lower-case letter |
| Text.ToUpperPlain | marketdata/worker.js:43 | On text without special characters, upper-casing keeps the length and maps each character to its ASCII upper case |
| Text.ToUpperAppend | marketdata/worker.js:43 | Upper-casing distributes over concatenation |
| Text.ToUpperIdempotent | marketdata/worker.js:43 | Upper-casing twice gives the same result as upper-casing once |
| Text.ToLower | marketdata/worker.js:44 | Lower-casing keeps the length and lowers each character on its own |
| Text.Includes | marketdata/worker.js:78 | `includes`. It has no ensures of its own; `Text.IncludesIff` states its behaviour |
| Text.IncludesIff | marketdata/worker.js:78 | `includes` holds exactly when the needle occurs at some index of the text |
| Symbols.JoinSplit | marketdata/worker.js:6 | Joining the comma-separated parts of any text with commas gives the text back |
| Symbols.SplitJoin | marketdata/worker.js:6 | Splitting a comma-join of one or more comma-free parts gives those parts back |
| Symbols.SymbolReTest | marketdata/worker.js:6 | The `SYMBOL_RE` test that line 47 applies. It has no ensures of its own; `Symbols.SymbolReTestIff`, `Symbols.AcceptedShape`, `Symbols.AcceptedExamples` and `Symbols.RejectedExamples` state its behaviour |
| Symbols.SymbolReTestIff | marketdata/worker.js:6 | The ticker-list test accepts a string exactly when it is one or more tickers joined by commas, where a ticker is a letter A-Z followed by 0 to 6 characters from A-Z, 0-9, '.' and '-' |
| Symbols.AcceptedShape | marketdata/worker.js:6 | An accepted list is non-empty, starts and ends with a ticker character, has no empty part (",,") and uses only ticker characters and commas |
| Symbols.AcceptedExamples | marketdata/worker.js:6 | "AAPL,MSFT" and "BRK.B" are accepted |
| Symbols.RejectedExamples | marketdata/worker.js:6 | "AAPL,", ",AAPL", "" and the eight-character "ABCDEFGH" are rejected |
| Symbols.NormaliseSymbols | marketdata/worker.js:43 | A missing or empty `symbols` parameter becomes "AAPL", and the result never contains an ASCII lower-case letter |
| Symbols.DefaultAccepted | marketdata/worker.js:43-47 | The default list passes validation |
| Symbols.AnyCaseAccepted | marketdata/worker.js:43-47 | A comma-join of names whose upper case is a ticker is accepted after normalisation, whatever case it is written in |
| Symbols.LowerCaseExamples | marketdata/worker.js:43-47 | "aapl" fails the raw test but passes once normalised |
| Symbols.RefreshRequested | marketdata/worker.js:44 | `refresh` is true exactly when the parameter is present and, lower-cased, equals "true"; it is false when absent |
| CacheKeys.EncodeURIComponent | marketdata/worker.js:56 | `encodeURIComponent` on ASCII text. It has no ensures of its own; `CacheKeys.DecodeEncode`, `CacheKeys.EncodeInjective` and `CacheKeys.EncodeAccepted` state its behaviour |
| CacheKeys.DecodeEncode | marketdata/worker.js:56 | Percent-decoding undoes `encodeURIComponent` on every ASCII string |
| CacheKeys.EncodeInjective | marketdata/worker.js:56 | Distinct ASCII strings encode to distinct strings |
| CacheKeys.EncodeAccepted | marketdata/worker.js:56 | On an accepted symbol list, `encodeURIComponent` only replaces each comma by "%2C" |
| CacheKeys.CacheKey | marketdata/worker.js:56 | The key is the fixed `edge-cache.local` prefix followed by the list with its commas written "%2C", and decoding the suffix gives the list back |
| CacheKeys.CacheKeyInjective | marketdata/worker.js:56 | Distinct accepted symbol lists have distinct cache keys |
| CacheKeys.KeyExample | marketdata/worker.js:56 | The key of "AAPL,MSFT" is the prefix followed by "AAPL%2CMSFT" |
| Cors.CorsFor | marketdata/worker.js:9-18 | Allow-Origin echoes the request's Origin exactly when it is the configured origin and is empty otherwise; the methods, headers and max-age are "GET,OPTIONS", "Content-Type" and "86400" |
| Upstream.DeclaresJson | marketdata/worker.js:78 | The `isJson` test. It has no ensures of its own; `Upstream.DeclaresJsonExamples` and `Text.IncludesIff` state its behaviour |
| Upstream.IsProviderError | marketdata/worker.js:78-89 | A non-2xx reply is an error; a reply declared JSON that parses to an object with a truthy `error` is an error; any other reply, a JSON parse failure included, is an error exactly when its status is not 2xx |
| Upstream.DeclaresJsonExamples | marketdata/worker.js:78 | "application/json; charset=utf-8" declares JSON; "Application/JSON" and a missing Content-Type do not |
| Upstream.ClassificationExamples | marketdata/worker.js:79-89 | Under a JSON content type, the documented 429 rate-limit answer with an `error` object is an error and so is the same object with status 200; a 200 that fails to parse is trusted, and so is a 200 with an `error` object but no Content-Type |
| Handler.Handle | marketdata/worker.js:33-123 | The whole handler as a pure function of the request, the cache and the provider's answer. It has no ensures of its own; `Handler.MethodCheck`, `Handler.InvalidSymbolsRejected`, `Handler.CacheHit`, `Handler.MissAsksProvider`, `Handler.FreshReplyStored`, `Handler.StaleFallback`, `Handler.FailureNotCached`, `Handler.NetworkFailureThrows`, `Handler.OnlyTrustedRepliesWritten`, `Handler.AtMostOneUpstreamRequest`, `Handler.StoresOnlyTrusted` and `Handler.SecondRequestHits` state its behaviour, and `Handler.Worker.Fetch` is proved equal to it |
| Handler.Served | marketdata/worker.js:94-102 | A stored entry served again, its headers built with the corrected merge. It has no ensures of its own; `Handler.CacheHit` and `Handler.StaleFallback` state its behaviour |
| Handler.PlainHeaders | marketdata/worker.js:36-39 | The headers of the preflight and 405 responses: the CORS record, then the default text type. It has no ensures of its own; `Handler.FreshHeadersRead` states its behaviour |
| Handler.JsonHeaders | marketdata/worker.js:48-51 | The headers of the 400 response and of the 429/504 response at lines 105-108: the JSON type, then the CORS record. It has no ensures of its own; `Handler.FreshHeadersRead` states its behaviour |
| Handler.FailureStatus | marketdata/worker.js:106 | The failure status is 429 or 504, and it is 429 exactly when the provider said 429 |
| Handler.FreshHeadersRead | marketdata/worker.js:36-50 | The responses built afresh carry the request's allowed origin and no cache marker or notice |
| Handler.MethodCheck | marketdata/worker.js:35-40 | OPTIONS gets an empty 200 and any other non-GET method a 405, each with the request's allowed origin and no marker; the cache and the provider are not touched |
| Handler.InvalidSymbolsRejected | marketdata/worker.js:47-52 | A list that fails validation gets a 400 with the "Invalid symbols" body; the cache and the provider are not touched |
| Handler.CacheHit | marketdata/worker.js:59-69 | A hit without `refresh` returns the stored body and status, marked HIT, with the current allowed origin and no notice; the provider is not asked and the cache is unchanged |
| Handler.MissAsksProvider | marketdata/worker.js:71-73 | A miss or a forced refresh asks the provider exactly once, for the normalised list |
| Handler.FreshReplyStored | marketdata/worker.js:111-122 | A trusted reply replaces the key's entry; the response is exactly what was stored and is marked MISS; every other key is unchanged |
| Handler.StaleFallback | marketdata/worker.js:92-103 | An error with an entry present returns the entry's body and status, marked HIT, with the stale notice; the cache is unchanged |
| Handler.FailureNotCached | marketdata/worker.js:104-108 | An error with no entry returns the "try later" body with 429 or 504, and nothing is stored |
| Handler.NetworkFailureThrows | marketdata/worker.js:73 | A network-level failure of the upstream request throws and leaves the cache unchanged |
| Handler.OnlyTrustedRepliesWritten | marketdata/worker.js:76-122 | The cache either stays as it was or gains the trusted reply under the request's key; nothing else can change it |
| Handler.AtMostOneUpstreamRequest | marketdata/worker.js:71-73 | At most one provider request is made per request, and only for the normalised list of a validated GET |
| Handler.StoresOnlyTrusted | marketdata/worker.js:76-121 | If every stored entry is 2xx and has no notice before a request, the same holds after it; an error is never cached |
| Handler.SecondRequestHits | marketdata/worker.js:56-69 | After a trusted reply is stored, a request for the same normalised list without `refresh` returns the same body and status marked HIT, with no provider request, whatever case and `refresh` the first request used |
| Handler.DistinctListsDistinctKeys | marketdata/worker.js:56 | Requests for different normalised lists use different keys |
| Handler.Worker.constructor | marketdata/worker.js:55 | The model's starting state: an empty cache, which satisfies the stored-entries invariant. The `eod-cache` namespace opened at line 55 persists and may already hold entries; `Fetch` needs only that invariant, not an empty cache |
| Handler.Worker.Fetch | marketdata/worker.js:33-123 | The step-by-step handler returns what `Handle` returns, leaves the cache as `Handle` does, appends `Handle`'s provider requests and keeps the stored-entries invariant |
| Handler.RepeatedRequest | marketdata/worker.js:59-122 | Two requests in a row through one worker: the first stores the trusted reply and returns its body and status marked MISS, and the second returns the same body and status marked HIT; the provider is asked once and the cache gains exactly the stored entry |
| Headers.GetEntries | marketdata/worker.js:64 | `Object.fromEntries` of a header list with distinct names gives a record with the same values under lower-cased names |
| Headers.EntriesHaveNoUpperKey | marketdata/worker.js:64 | That record has no key containing an upper-case letter, so spreading the mixed-case CORS and marker names cannot overwrite any of its keys |
| Headers.StoredHeaders | marketdata/worker.js:112-120 | The headers of the fresh response that is stored and returned. It has no ensures of its own; `Headers.StoredNamesDistinct` and `Headers.StoredHeadersRead` state its behaviour |
| Headers.StoredNamesDistinct | marketdata/worker.js:114-119 | The stored response's header names are pairwise distinct, ignoring case |
| Headers.StoredHeadersRead | marketdata/worker.js:112-120 | The stored response reads "MISS" as its marker, the first requester's allowed origin as its origin, and has no notice |
| Headers.HitHeadersAsWritten | marketdata/worker.js:61-68 | The merge lines 61-68 and 94-102 do, as written. It has no ensures of its own; `Headers.AsWrittenAppends`, `Headers.AsWrittenDoublesHeaders` and `Headers.DoubledHeadersExample` state its behaviour |
| Headers.AsWrittenAppends | marketdata/worker.js:61-68 | As written, no spread name is already a key of the lower-cased record, so the served list is the stored entries followed by the CORS headers, the marker and the notice |
| Headers.AsWrittenDoublesHeaders | marketdata/worker.js:61-68 | As written, a served response's marker reads as the stored marker followed by ", HIT", and its origin as the stored origin followed by the current one |
| Headers.DoubledHeadersExample | marketdata/worker.js:59-68 | For a browser on the allowed origin, the second request is served with marker "MISS, HIT" and the origin listed twice |
| Headers.HitHeaders | marketdata/worker.js:61-68 | The corrected merge, with `headers.set` in place of the spread. It has no ensures of its own; `Headers.GetHitHeaders`, `Headers.HitHeadersSingleValued` and `Headers.HitHeadersKeepOthers` state its behaviour |
| Headers.GetHitHeaders | marketdata/worker.js:94-102 | In the corrected merge, each name reads the value set last under it, and a name set by no step reads as stored |
| Headers.HitHeadersSingleValued | marketdata/worker.js:61-68 | In the corrected merge, a served response reads "HIT" as its only marker and the current allowed origin as its only origin; it carries the given notice, and when none is given, whatever notice was stored |
| Headers.HitHeadersKeepOthers | marketdata/worker.js:61-68 | In the corrected merge, every stored header the merge does not set, such as Content-Type and Cache-Control, is served as stored |

## Findings

| source | as written | input that shows it | evidently intended | confidence | as-written member | corrected member |
|---|---|---|---|---|---|---|
| marketdata/worker.js:61-68 | `Object.fromEntries(cached.headers)` gives lower-cased names such as `x-worker-cache`. The spread then adds the mixed-case names `X-Worker-Cache` and `Access-Control-Allow-Origin` as extra keys, and `new Headers` appends both values under the same name. The same code is at lines 94-102. | A GET from `https://m-zhang.me` for `AAPL` that misses and stores, then the same GET again. The second response reads `X-Worker-Cache: MISS, HIT` and `Access-Control-Allow-Origin: https://m-zhang.me, https://m-zhang.me`, and browsers reject a doubled origin. | The served response has the marker `HIT` and the current allowed origin, each once, like `headers.set` | medium, not executed | Headers.AsWrittenDoublesHeaders, Headers.DoubledHeadersExample | Headers.HitHeaders, Headers.HitHeadersSingleValued |

The handler (`Handler.Served`) builds its HIT responses with the corrected merge
`Headers.HitHeaders`; see the `Handler.Served` line under "Left out".

## Left out

- Marketstack URL building (`buildMarketstackUrl`, lines 21-30): `URLSearchParams` encoding and the secret API key are not modelled. The provider request is recorded as the normalised symbol list it is for.
- TTL expiry and the meaning of `Cache-Control` (lines 3 and 116): expiry is done by the platform. The header appears only as a value in the stored list.
- Platform `caches.open`, `match` and `put`: the cache is a map from key to entry. The platform's own refusals, such as a put rejected for a 206 response, are not modelled.
- `Response` construction errors: a 2xx body-less status such as 204 given a body makes `new Response` throw. The model returns the response.
- Headers the platform adds to a stored response, and the Fetch sorting of header names when iterated, are not modelled. `Headers.Entries` keeps list order and is defined only for lists with distinct names.
- `encodeURIComponent` on text outside ASCII: only accepted lists are encoded, and they are ASCII.
- `toUpperCase` and `toLowerCase` outside ASCII: only the characters listed above that map into ASCII are mapped. Every other character is left as it is, which gives the same validation verdict.
- `JSON.parse` internals: its outcome is an input.
- The request's method and query string arrive as parsed fields: URL parsing, and repeated query parameters, are not modelled.
- The async sequencing of `await` and concurrent requests: each request is handled as one step.
- Scheduled refresh, ticker batches and database upserts: there is no such code in `marketdata/worker.js`.
- Handler.Served: a served response's headers follow the corrected merge `Headers.HitHeaders`, not the merge that lines 61-68 and 94-102 do. So `Handler.Handle` and `Handler.Worker.Fetch` compute the headers as intended, and the marker and origin facts of `Handler.CacheHit`, `Handler.StaleFallback`, `Handler.SecondRequestHits` and `Handler.RepeatedRequest` hold for the corrected merge. As written, those headers read "MISS, HIT" and the origin twice (`Headers.DoubledHeadersExample`). Bodies, statuses and cache contents are the same under both merges.
- Handler.CacheHit: its "HIT" marker and origin clauses hold for the corrected merge `Headers.HitHeaders`; as written the marker reads "MISS, HIT" and the origin reads the stored origin followed by the current one (`Headers.AsWrittenDoublesHeaders`).
- Handler.StaleFallback: its "HIT" marker and origin clauses hold for the corrected merge `Headers.HitHeaders`; as written the marker reads "MISS, HIT" and the origin reads the stored origin followed by the current one (`Headers.AsWrittenDoublesHeaders`).
- Handler.SecondRequestHits: its "HIT" marker and origin clauses hold for the corrected merge `Headers.HitHeaders`; as written the marker reads "MISS, HIT" and the origin reads the stored origin followed by the current one (`Headers.AsWrittenDoublesHeaders`).
- Handler.RepeatedRequest: its "HIT" marker clause holds for the corrected merge `Headers.HitHeaders`; as written the marker reads "MISS, HIT" and the origin reads the stored origin followed by the current one (`Headers.AsWrittenDoublesHeaders`).
- Handler.Worker.Fetch: like `Handler.Handle`, it serves a stored entry with headers built by the corrected merge `Headers.HitHeaders`; as written the marker reads "MISS, HIT" and the origin reads the stored origin followed by the current one (`Headers.AsWrittenDoublesHeaders`).
