/** The CORS headers every response carries (lines 9-18 of the worker). */
module Cors {
  import opened Wrappers

  /** The one browser origin the worker serves. */
  const AllowedOrigin: string := "https://m-zhang.me"

  datatype CorsHeaders = CorsHeaders(
    allowOrigin: string,    // Access-Control-Allow-Origin
    allowMethods: string,   // Access-Control-Allow-Methods
    allowHeaders: string,   // Access-Control-Allow-Headers
    maxAge: string)         // Access-Control-Max-Age

  /** The CORS headers for a request whose `Origin` header is `origin`: the
      allowed origin is echoed when the request comes from it, and the empty
      string is sent otherwise (an absent header counts as empty). */
  function CorsFor(origin: Option<string>): (h: CorsHeaders)
    ensures h.allowOrigin != "" ==> origin == Some(h.allowOrigin)
    ensures h.allowOrigin != "" <==> origin == Some(AllowedOrigin)
    ensures h.allowMethods == "GET,OPTIONS" && h.allowHeaders == "Content-Type" && h.maxAge == "86400"
  {
    var requested := origin.GetOr("");
    var allow := if requested == AllowedOrigin then requested else "";
    CorsHeaders(allow, "GET,OPTIONS", "Content-Type", "86400")
  }
}
