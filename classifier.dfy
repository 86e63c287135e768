/** The two guards at the top of the fetch handler: which requests the worker answers. */
module Classifier {
  import opened Http
  import opened Wrappers
  import opened Urls

  /** The guards as written: a GET whose URL starts with the origin string. */
  predicate InterceptedAsWritten(req: Request, origin: string)
  {
    req.httpMethod == "GET" && StartsWith(req.url, origin)
  }

  /** The guards as intended: a GET to the worker's own origin. */
  predicate Intercepted(req: Request, origin: string)
  {
    req.httpMethod == "GET" && HasOrigin(req.url, origin)
  }

  /**
   * An intercepted request is a GET whose URL has the worker's origin; every
   * such request is one the guards as written also let through.
   */
  lemma InterceptedIsSameOriginGet(req: Request, origin: string)
    requires IsOrigin(origin)
    ensures Intercepted(req, origin) <==> req.httpMethod == "GET" && OriginOf(req.url) == Some(origin)
    ensures Intercepted(req, origin) ==> InterceptedAsWritten(req, origin)
  {
    HasOriginIsOriginOf(req.url, origin);
  }

  /** The guards as written intercept a GET to another host whose name extends the origin's. */
  lemma AsWrittenInterceptsForeignHost()
    ensures var req := Request("GET", "http://ab/", Cors);
      InterceptedAsWritten(req, "http://a") && !Intercepted(req, "http://a")
      && IsOrigin("http://a") && OriginOf(req.url) != Some("http://a")
  {
    StartsWithAdmitsForeignHost();
  }
}
