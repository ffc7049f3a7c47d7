/** What the market-data provider answered, and whether the worker treats the
    answer as an error (lines 76-89 of the worker). */
module Upstream {
  import opened Wrappers
  import opened Text

  /** What `JSON.parse` makes of the body: a syntax error, a value that is not
      a non-null object (`null`, a number, a string, a boolean), or an object
      (arrays included), with whether its `error` property is truthy. */
  datatype ParseResult = ParseFailed | NonObject | Object(truthyError: bool)

  /** The provider's response: its HTTP status, its `Content-Type` header if
      any, its body text, and what parsing that text as JSON gives. */
  datatype Reply = Reply(status: int, contentType: Option<string>, body: string, parsed: ParseResult)

  /** `Response.ok`: the status is in the range 200-299. */
  predicate IsOkStatus(status: int) { 200 <= status <= 299 }

  /** The `Content-Type` header is present and contains `application/json`
      (a case-sensitive substring test). */
  predicate DeclaresJson(contentType: Option<string>) {
    contentType.Some? && Includes(contentType.value, "application/json")
  }

  /** Whether the worker refuses to trust the reply: the status is not 2xx, or
      the body is declared JSON, parses to an object and that object has a
      truthy `error` property. */
  function IsProviderError(r: Reply): (failed: bool)
    ensures !IsOkStatus(r.status) ==> failed
    ensures DeclaresJson(r.contentType) && r.parsed == Object(true) ==> failed
    ensures failed && IsOkStatus(r.status) ==> DeclaresJson(r.contentType) && r.parsed == Object(true)
    // A body that fails to parse, or is not an object, or has no truthy
    // `error`, leaves the verdict to the status alone; so does a reply not
    // declared JSON, whatever its body.
    ensures r.parsed != Object(true) ==> (failed <==> !IsOkStatus(r.status))
    ensures !DeclaresJson(r.contentType) ==> (failed <==> !IsOkStatus(r.status))
  {
    !IsOkStatus(r.status) || (DeclaresJson(r.contentType) && r.parsed == Object(true))
  }

  /** The header test matches a JSON type with parameters and misses an
      upper-case spelling. */
  lemma DeclaresJsonExamples()
    ensures DeclaresJson(Some("application/json; charset=utf-8"))
    ensures !DeclaresJson(Some("Application/JSON"))
    ensures !DeclaresJson(None)
  {
    assert OccursAt("application/json; charset=utf-8", "application/json", 0);
    IncludesIff("application/json; charset=utf-8", "application/json");
    IncludesIff("Application/JSON", "application/json");
    var upper, lower := "Application/JSON", "application/json";
    assert upper[0..16][0] != lower[0];
    assert forall i :: !OccursAt(upper, lower, i);
  }

  /** The rate-limit answer the provider documents, a 429 with an error object,
      is an error; so is the same object with status 200. A 200 whose body does
      not parse is trusted. */
  lemma ClassificationExamples(ct: string, body: string)
    requires Includes(ct, "application/json")
    ensures IsProviderError(Reply(429, Some(ct), body, Object(true)))
    ensures IsProviderError(Reply(200, Some(ct), body, Object(true)))
    ensures !IsProviderError(Reply(200, Some(ct), body, ParseFailed))
    ensures !IsProviderError(Reply(200, None, body, Object(true)))
  {
  }
}
