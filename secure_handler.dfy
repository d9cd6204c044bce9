/** The wrapper placed around API route handlers
    (middlewares/secureHandler.ts): rate-limit by client address, then
    sanitise a JSON body, then run the wrapped handler; anything the handler
    throws becomes a 500. */
module SecureHandler {
  import opened Common
  import opened RateLimit
  import opened Sanitize

  /** The window and quota of the one limiter all wrapped handlers share. */
  const WindowMs := 60_000
  const MaxRequests := 10

  /** What `req.json()` makes of the body: a JSON value, or a parse error. */
  datatype Body = Parsed(json: Json) | Malformed

  datatype Request = Request(
    verb: string,
    url: string,
    forwardedFor: Option<string>,
    contentType: Option<string>,
    body: Body)

  /** What the wrapped handler does: answer, or throw. */
  datatype Outcome<R> = Returned(response: R) | Threw

  /** What the wrapper answers. */
  datatype Secured<R> =
    | TooManyRequests(retryAfter: Option<int>)  // 429
    | InternalError                             // 500 "Internal error"
    | Passed(response: R)                       // the handler's own response

  function Status<R>(s: Secured<R>, inner: R -> int): int {
    match s
    case TooManyRequests(_) => 429
    case InternalError => 500
    case Passed(r) => inner(r)
  }

  /** `x-forwarded-for`, or "unknown" when the header is absent or empty. */
  function LimiterKey(req: Request): (key: string)
    ensures !Present(req.forwardedFor) ==> key == "unknown"
    ensures Present(req.forwardedFor) ==> key == req.forwardedFor.value
  {
    if Present(req.forwardedFor) then req.forwardedFor.value else "unknown"
  }

  /** Clients that send no forwarding header all share one bucket. */
  lemma HeaderlessClientsShareBucket(a: Request, b: Request)
    requires !Present(a.forwardedFor) && !Present(b.forwardedFor)
    ensures LimiterKey(a) == LimiterKey(b)
  {
  }

  /** Only non-GET requests that declare a JSON content type are sanitised. */
  predicate ShouldSanitize(req: Request) {
    req.verb != "GET" && req.contentType.Some? && Contains(req.contentType.value, "application/json")
  }

  /** The request handed to the wrapped handler: rebuilt with the sanitised
      body when the body is sanitised and parses, otherwise the original. */
  function Prepared(req: Request): (r: Request)
    ensures r.verb == req.verb && r.url == req.url
    ensures r.forwardedFor == req.forwardedFor && r.contentType == req.contentType
    ensures !ShouldSanitize(req) || req.body.Malformed? ==> r == req
    ensures ShouldSanitize(req) && req.body.Parsed? ==> r.body == Parsed(Sanitized(req.body.json))
  {
    if ShouldSanitize(req) && req.body.Parsed? then
      req.(body := Parsed(Sanitized(req.body.json)))
    else
      req
  }

  /** A JSON body that reaches the handler through the sanitising path holds
      no rejected key at any depth. */
  lemma SanitisedBodyIsClean(req: Request)
    requires ShouldSanitize(req) && req.body.Parsed?
    ensures Prepared(req).body.Parsed? && Clean(Prepared(req).body.json)
  {
    SanitizedIsClean(req.body.json);
  }

  /** Everything after the limiter's verdict: the answer, and the request
      the wrapped handler saw (None when it was never invoked). */
  function Gate<R>(v: Verdict, req: Request, handler: Request -> Outcome<R>): (r: (Secured<R>, Option<Request>))
    ensures !v.allowed ==> r == (TooManyRequests(v.retryAfter), None)
    ensures v.allowed ==> r.1 == Some(Prepared(req))
    ensures v.allowed && handler(Prepared(req)).Threw? ==> r.0 == InternalError
    ensures v.allowed && handler(Prepared(req)).Returned? ==> r.0 == Passed(handler(Prepared(req)).response)
  {
    if !v.allowed then (TooManyRequests(v.retryAfter), None)
    else
      var prepared := Prepared(req);
      match handler(prepared)
      case Threw => (InternalError, Some(prepared))
      case Returned(resp) => (Passed(resp), Some(prepared))
  }

  /** The wrapper: one shared limiter of 10 requests per 60 000 ms. */
  class Wrapper {
    const limiter: Limiter

    predicate Valid() {
      limiter.windowMs == WindowMs && limiter.maxRequests == MaxRequests
    }

    constructor (table: ClientTable)
      ensures Valid() && limiter.table == table
    {
      limiter := new Limiter(table, WindowMs, MaxRequests);
    }

    method Handle<R>(req: Request, now: int, handler: Request -> Outcome<R>) returns (res: Secured<R>, forwarded: Option<Request>)
      requires Valid()
      modifies limiter.table
      ensures var (v, t) := Step(old(limiter.table.clients), LimiterKey(req), now, WindowMs, MaxRequests);
              limiter.table.clients == t && (res, forwarded) == Gate(v, req, handler)
    {
      var ip := if Present(req.forwardedFor) then req.forwardedFor.value else "unknown";
      var verdict := limiter.Call(ip, now);
      if !verdict.allowed {
        return TooManyRequests(verdict.retryAfter), None;
      }
      var r := req;
      if req.verb != "GET" && req.contentType.Some? && Contains(req.contentType.value, "application/json") {
        match req.body {
          case Parsed(raw) =>
            var cleanBody := DeepSanitize(raw);
            r := req.(body := Parsed(cleanBody));
          case Malformed =>
        }
      }
      match handler(r) {
        case Threw => res := InternalError;
        case Returned(resp) => res := Passed(resp);
      }
      forwarded := Some(r);
    }
  }
}
