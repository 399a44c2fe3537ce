/** The admission gate: Next.js middleware in front of every `/api/` path.
    It derives a rate-limiter key from the caller's address, asks the limiter
    (an Upstash fixed window of 10 requests per 10 seconds; the counting is
    the library's and is an input here), passes the request on or rewrites it
    to the blocked route, and stamps the limiter's quota on the response's
    headers in place. */
module Middleware {
  import opened Outcomes
  import opened Decimal

  const LoopbackIp := "127.0.0.1"

  const KeyPrefix := "mw_"

  const BlockedPath := "/api/blocked"

  const RateLimitExceeded := "RATELIMIT_EXCEEDED"

  const LimitHeader := "X-RateLimit-Limit"

  const RemainingHeader := "X-RateLimit-Remaining"

  const ResetHeader := "X-RateLimit-Reset"

  /** The fixed part of the matcher, before its `:path*` parameter. */
  const MatcherBase := "/api"

  /** `config.matcher`. */
  const Matcher := MatcherBase + "/:path*"

  /** The paths `Matcher` selects: a `:path*` parameter matches zero or more
      segments, so the base itself and every path below it. */
  predicate MatcherApplies(path: string): (r: bool)
    ensures r <==> path == MatcherBase || MatcherBase + "/" <= path
  {
    path == "/api" || (|path| >= 5 && path[..5] == "/api/")
  }

  /** Every path below the base, whatever its segments, reaches the middleware;
      a path that does not start with the base never does. */
  lemma MatcherCoversSubtree(rest: string, other: string)
    ensures MatcherApplies(MatcherBase + "/" + rest)
    ensures !(MatcherBase <= other) ==> !MatcherApplies(other)
  {
    assert (MatcherBase + "/" + rest)[..5] == MatcherBase + "/";
    if MatcherApplies(other) && other != MatcherBase {
      assert other[..4] == (MatcherBase + "/")[..4];
    }
  }

  /** The caller's address, when the platform knows it, and the request URL. */
  datatype GateRequest = GateRequest(ip: Option<string>, url: string)

  /** What `ratelimit.limit(key)` resolves to. */
  datatype LimitResult = LimitResult(success: bool, limit: int, remaining: int, reset: int)

  /** The limiter's answer for a key at the moment of the call. */
  type Limiter = string -> LimitResult

  /** `req.ip ?? "127.0.0.1"`: only an absent address falls back. */
  function ClientIdentity(ip: Option<string>): string
  {
    if ip.Some? then ip.value else LoopbackIp
  }

  /** The limiter key: the prefix, then the caller's identity, which can be read back from it. */
  function LimiterKey(ip: Option<string>): (key: string)
    ensures |key| == |KeyPrefix| + |ClientIdentity(ip)|
    ensures key[..|KeyPrefix|] == KeyPrefix && key[|KeyPrefix|..] == ClientIdentity(ip)
  {
    KeyPrefix + ClientIdentity(ip)
  }

  /** Two requests share a quota exactly when they have the same identity, so
      every request without an address shares the loopback address's quota. */
  lemma SameKeyIffSameIdentity(a: Option<string>, b: Option<string>)
    ensures LimiterKey(a) == LimiterKey(b) <==> ClientIdentity(a) == ClientIdentity(b)
    ensures LimiterKey(None) == LimiterKey(Some(LoopbackIp))
  {
    if LimiterKey(a) == LimiterKey(b) {
      assert ClientIdentity(a) == LimiterKey(a)[|KeyPrefix|..];
    }
  }

  /** Where the request goes next. */
  /** A rewrite goes to `new URL(path, base)`: the path, resolved against the request's URL. */
  datatype Routing = PassThrough | Rewrite(path: string, base: string)

  /** `success ? NextResponse.next() : NextResponse.rewrite(new URL(blocked, req.url))`. */
  function RouteFor(success: bool, url: string): (r: Routing)
    ensures r.PassThrough? <==> success
    ensures !success ==> r == Rewrite(BlockedPath, url)
  {
    if success then PassThrough else Rewrite(BlockedPath, url)
  }

  /** The three quota headers for a limiter answer, values in decimal. */
  function QuotaHeaders(o: LimitResult): (h: map<string, string>)
    ensures h.Keys == {LimitHeader, RemainingHeader, ResetHeader}
  {
    map[LimitHeader := IntToString(o.limit),
        RemainingHeader := IntToString(o.remaining),
        ResetHeader := IntToString(o.reset)]
  }

  /** Each quota header's value reads back as the limiter's own number. */
  lemma QuotaHeadersCarryValues(o: LimitResult)
    ensures ParseInt(QuotaHeaders(o)[LimitHeader]) == Some(o.limit)
    ensures ParseInt(QuotaHeaders(o)[RemainingHeader]) == Some(o.remaining)
    ensures ParseInt(QuotaHeaders(o)[ResetHeader]) == Some(o.reset)
  {
    IntToStringRoundTrip(o.limit);
    IntToStringRoundTrip(o.remaining);
    IntToStringRoundTrip(o.reset);
  }

  /** The blocked route is itself under the matcher, so blocked requests are rewritten within `/api/`. */
  lemma BlockedPathIsGated()
    ensures MatcherApplies(BlockedPath)
    ensures !MatcherApplies("/apis") && !MatcherApplies("/")
  {
    MatcherCoversSubtree("blocked", "/");
    assert "/apis"[..5][4] != "/api/"[4];
  }

  /** A response's header list, updated in place by `set`. */
  class Headers {
    var entries: map<string, string>

    constructor ()
      ensures entries == map[]
    {
      entries := map[];
    }

    /** `headers.set(name, value)`: adds or replaces one header. */
    method Set(name: string, value: string)
      modifies this
      ensures entries == old(entries)[name := value]
    {
      entries := entries[name := value];
    }
  }

  /** The response the middleware hands back to the framework. */
  class NextResponse {
    const routing: Routing
    const headers: Headers

    /** `NextResponse.next()`. */
    constructor Next()
      ensures routing == PassThrough && fresh(headers) && headers.entries == map[]
    {
      routing := PassThrough;
      headers := new Headers();
    }

    /** `NextResponse.rewrite(new URL(path, base))`. */
    constructor Rewrite(path: string, base: string)
      ensures routing == Routing.Rewrite(path, base) && fresh(headers) && headers.entries == map[]
    {
      routing := Routing.Rewrite(path, base);
      headers := new Headers();
    }
  }

  /** The `log.error` call made when the limiter refuses. */
  datatype LogRecord = LogRecord(message: string, code: string)

  /** The log text interpolates `req.ip` itself, not the fallback: it names the
      identity the limiter was asked about exactly when the address is present. */
  function IpText(ip: Option<string>): (t: string)
    ensures t == ClientIdentity(ip) <==> ip.Some?
    ensures ip.Some? ==> t == ip.value
    ensures ip.None? ==> t == "undefined"
  {
    if ip.Some? then ip.value else "undefined"
  }

  /** `middleware`: one limiter call, with the derived key (`keys` lists the
      keys passed to the limiter, in order); an error is logged
      only on refusal; the request passes through on success and is rewritten
      to the blocked route otherwise; on both branches the response carries the
      three quota headers with the limiter's values. */
  method HandleRequest(req: GateRequest, limiter: Limiter) returns (res: NextResponse, keys: seq<string>, log: seq<LogRecord>)
    ensures keys == [LimiterKey(req.ip)]
    ensures fresh(res) && fresh(res.headers)
    ensures res.routing == RouteFor(limiter(LimiterKey(req.ip)).success, req.url)
    ensures res.headers.entries == QuotaHeaders(limiter(LimiterKey(req.ip)))
    ensures log == if limiter(LimiterKey(req.ip)).success then []
                   else [LogRecord("RateLimit exceeded for IP: " + IpText(req.ip), RateLimitExceeded)]
  {
    var ip := if req.ip.Some? then req.ip.value else LoopbackIp;
    keys := [KeyPrefix + ip];
    var outcome := limiter(KeyPrefix + ip);
    log := [];
    if !outcome.success {
      log := [LogRecord("RateLimit exceeded for IP: " + IpText(req.ip), RateLimitExceeded)];
    }
    if outcome.success {
      res := new NextResponse.Next();
    } else {
      res := new NextResponse.Rewrite(BlockedPath, req.url);
    }
    res.headers.Set(LimitHeader, IntToString(outcome.limit));
    res.headers.Set(RemainingHeader, IntToString(outcome.remaining));
    res.headers.Set(ResetHeader, IntToString(outcome.reset));
  }
}
