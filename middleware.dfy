/**
 * The request middleware: in production an http request is redirected to
 * https; otherwise the security headers are attached, the client is
 * identified by IP and user agent, a per-path limit is chosen, the rate
 * limiter is consulted, and a request whose URL or body looks like an
 * attack is blocked.
 */
module Middleware {
  import opened Wrappers
  import opened Text
  import opened Numeric
  import opened Security

  // ---------------------------------------------------------------------
  // Requests and responses
  // ---------------------------------------------------------------------

  /** The parts of `request.nextUrl` the middleware reads. */
  datatype Url = Url(protocol: string, host: string, pathname: string, search: string)

  /** `nextUrl.toString()`. */
  function Href(u: Url): string
  {
    u.protocol + "//" + u.host + u.pathname + u.search
  }

  /** A request: its URL, the three headers read, and the text
      `request.body ? request.body.toString() : ''`. */
  datatype Request = Request(
    url: Url,
    forwardedFor: Option<string>,
    realIp: Option<string>,
    userAgent: Option<string>,
    bodyText: string)

  datatype Response =
    | Redirect(location: Url)
    | Json(status: int, body: string, headers: seq<(string, string)>)
    | Next(headers: seq<(string, string)>)

  // ---------------------------------------------------------------------
  // Rate-limit configuration
  // ---------------------------------------------------------------------

  datatype RateConfig = RateConfig(limit: int, window: int)

  /** `RATE_LIMITS`, in declaration order. */
  const RateLimits: seq<(string, RateConfig)> := [
    ("/api/contact", RateConfig(5, 60000)),
    ("/api/", RateConfig(100, 60000)),
    ("default", RateConfig(200, 60000))
  ]

  const DefaultConfig: RateConfig := RateConfig(200, 60000)

  /** The configuration of the first entry other than `default` whose
      pattern is a prefix of `path`, else the default one. */
  function FirstMatch(entries: seq<(string, RateConfig)>, path: string): RateConfig
  {
    if entries == [] then DefaultConfig
    else if entries[0].0 != "default" && entries[0].0 <= path then entries[0].1
    else FirstMatch(entries[1..], path)
  }

  /** The limit for a path: 5 per minute under `/api/contact`, 100 under any
      other `/api/` path, 200 elsewhere. */
  lemma RateConfigByPrefix(path: string)
    ensures FirstMatch(RateLimits, path) ==
      if "/api/contact" <= path then RateConfig(5, 60000)
      else if "/api/" <= path then RateConfig(100, 60000)
      else RateConfig(200, 60000)
  {
    var rest := [("/api/", RateConfig(100, 60000)), ("default", RateConfig(200, 60000))];
    var last := [("default", RateConfig(200, 60000))];
    assert RateLimits[0].0 != "default" by { assert RateLimits[0].0[1] != "default"[1]; }
    assert RateLimits[1..] == rest;
    assert rest[0].0 != "default" by { assert rest[0].0[1] != "default"[1]; }
    assert rest[1..] == last;
    assert last[1..] == [];
    assert FirstMatch(last, path) == DefaultConfig;
    assert FirstMatch(rest, path) == if "/api/" <= path then RateConfig(100, 60000) else DefaultConfig;
  }

  /** The selection loop: the default first, replaced by the first matching
      entry other than `default`, then `break`. */
  method SelectRateConfig(path: string) returns (config: RateConfig)
    ensures config == FirstMatch(RateLimits, path)
  {
    config := DefaultConfig;
    var i := 0;
    while i < |RateLimits|
      invariant 0 <= i <= |RateLimits|
      invariant FirstMatch(RateLimits, path) == FirstMatch(RateLimits[i..], path)
      invariant config == DefaultConfig
    {
      var (pattern, c) := RateLimits[i];
      if pattern != "default" && pattern <= path {
        config := c;
        assert RateLimits[i..][0] == (pattern, c);
        return;
      }
      assert RateLimits[i..][1..] == RateLimits[i + 1..];
      i := i + 1;
    }
  }

  // ---------------------------------------------------------------------
  // Client identification
  // ---------------------------------------------------------------------

  /** The first comma-separated field of `x-forwarded-for`, else
      `x-real-ip`, else `unknown`; an empty value falls through. */
  function ClientIp(forwardedFor: Option<string>, realIp: Option<string>): (ip: string)
    ensures ip != []
    ensures forwardedFor.Some? && FirstField(forwardedFor.value, ',') != [] ==>
      ip == FirstField(forwardedFor.value, ',') && ip <= forwardedFor.value && ',' !in ip
    ensures (forwardedFor.None? || FirstField(forwardedFor.value, ',') == []) ==>
      ip == if realIp.Some? && realIp.value != [] then realIp.value else "unknown"
  {
    var first := if forwardedFor.Some? then FirstField(forwardedFor.value, ',') else [];
    if first != [] then first
    else if realIp.Some? && realIp.value != [] then realIp.value
    else "unknown"
  }

  /** `user-agent`, or `unknown` when absent or empty. */
  function UserAgentOf(r: Request): string
  {
    if r.userAgent.Some? && r.userAgent.value != [] then r.userAgent.value else "unknown"
  }

  /** `${clientIP}-${tag}`, where `agentTag` stands for the first ten
      characters of the base64 encoding of the user agent. */
  function ClientId(r: Request, agentTag: string -> string): string
  {
    ClientIp(r.forwardedFor, r.realIp) + "-" + agentTag(UserAgentOf(r))
  }

  // ---------------------------------------------------------------------
  // Suspicious patterns
  // ---------------------------------------------------------------------

  /** The six patterns: `\.\.`, `<script` (i), `union.*select` (i),
      `javascript:` (i), `data:` (i), `vbscript:` (i). */
  predicate Suspicious(text: string)
  {
    || Contains(text, "..")
    || ContainsIgnoreCase(text, "<script")
    || FollowedOnLine(Lower(text), "union", "select")
    || ContainsIgnoreCase(text, "javascript:")
    || ContainsIgnoreCase(text, "data:")
    || ContainsIgnoreCase(text, "vbscript:")
  }

  /** A body stream renders as `[object ReadableStream]`. */
  const StreamText: string := "[object ReadableStream]"

  lemma StreamTextChars()
    ensures '.' !in StreamText && ':' !in StreamText && '<' !in StreamText
    ensures 'u' !in StreamText && 'U' !in StreamText
  {
    StreamTextLacks('.');
    StreamTextLacks(':');
    StreamTextLacks('<');
    StreamTextLacks('u');
    StreamTextLacks('U');
  }

  lemma StreamTextLacks(c: char)
    requires c in ".:<uU"
    ensures c !in StreamText
  {
  }

  /** Text without `.`, `:`, `<` or a `u` of either case matches no pattern. */
  lemma NoMarkersNeverSuspicious(t: string)
    requires '.' !in t && ':' !in t && '<' !in t && 'u' !in t && 'U' !in t
    ensures !Suspicious(t)
  {
    var low := Lower(t);
    LowerKeepsOut(t, ':', ':');
    LowerKeepsOut(t, '<', '<');
    LowerKeepsOut(t, 'u', 'U');
    MissingCharAbsent(t, "..", '.');
    MissingCharAbsent(low, "<script", '<');
    MissingCharAbsent(low, "javascript:", ':');
    MissingCharAbsent(low, "data:", ':');
    MissingCharAbsent(low, "vbscript:", ':');
    MissingCharAbsent(low, "union", 'u');
    if FollowedOnLine(low, "union", "select") {
      FollowedNeedsFirst(low, "union", "select");
    }
  }

  /** The body check never fires on a request with a body: its text is the
      stream's description, which matches none of the patterns. */
  lemma StreamBodyNeverSuspicious()
    ensures !Suspicious(StreamText)
  {
    StreamTextChars();
    NoMarkersNeverSuspicious(StreamText);
  }

  // ---------------------------------------------------------------------
  // The decision
  // ---------------------------------------------------------------------

  const JsonContentType: (string, string) := ("Content-Type", "application/json")
  const BlockedBody: string := "{\"error\":\"Request blocked\"}"

  /** Seconds until the window resets, rounded up. */
  function RetryAfterSeconds(resetTime: int, now: int): int
  {
    CeilDiv(resetTime - now, 1000)
  }

  /** The 429 response. */
  function TooManyRequests(resetTime: int, now: int): Response
  {
    var retry := RetryAfterSeconds(resetTime, now);
    Json(429,
         "{\"error\":\"Rate limit exceeded\",\"retryAfter\":" + IntToString(retry) + "}",
         [JsonContentType, ("Retry-After", IntToString(retry))] + SecurityHeaders)
  }

  /** The 400 response for a suspicious request. */
  function Blocked(): Response
  {
    Json(400, BlockedBody, [JsonContentType] + SecurityHeaders)
  }

  /** The headers set on the pass-through response after an allowed check. */
  function RateLimitHeaders(limit: int, check: RateLimitResult): seq<(string, string)>
  {
    [("X-RateLimit-Limit", IntToString(limit)),
     ("X-RateLimit-Remaining", IntToString(check.remaining)),
     ("X-RateLimit-Reset", IntToString(CeilDiv(check.resetTime, 1000)))]
  }

  /** `middleware` at time `now` against the limiter's store: the new store
      and the response. */
  function Decide(store: map<string, RateLimitEntry>, r: Request, isProduction: bool, now: int,
                  agentTag: string -> string): (out: (map<string, RateLimitEntry>, Response))
    ensures out.1.Redirect? <==> isProduction && r.url.protocol == "http:"
    ensures out.1.Redirect? ==> out.0 == store
    ensures !out.1.Redirect? ==> ClientId(r, agentTag) in out.0
  {
    if isProduction && r.url.protocol == "http:" then
      (store, Redirect(r.url.(protocol := "https:")))
    else
      var id := ClientId(r, agentTag);
      var config := FirstMatch(RateLimits, r.url.pathname);
      var step := CheckRateLimit(store, id, config.limit, config.window, now);
      if !step.1.allowed then (step.0, TooManyRequests(step.1.resetTime, now))
      else if Suspicious(Href(r.url)) || Suspicious(r.bodyText) then (step.0, Blocked())
      else (step.0, Next(SecurityHeaders + RateLimitHeaders(config.limit, step.1)))
  }

  /** In production, plain http is redirected before any rate-limit work. */
  lemma HttpsRedirectFirst(store: map<string, RateLimitEntry>, r: Request, now: int, agentTag: string -> string)
    requires r.url.protocol == "http:"
    ensures Decide(store, r, true, now, agentTag) == (store, Redirect(r.url.(protocol := "https:")))
    ensures Href(Decide(store, r, true, now, agentTag).1.location) == "https:" + Href(r.url)[5..]
  {
    assert Href(r.url) == "http:" + ("//" + r.url.host + r.url.pathname + r.url.search);
  }

  /** A denied request gets a 429 telling the client to wait the remaining
      seconds of the window, at least one, whatever its URL holds. */
  lemma DeniedBeforePatterns(store: map<string, RateLimitEntry>, r: Request, isProduction: bool, now: int,
                             agentTag: string -> string)
    requires !(isProduction && r.url.protocol == "http:")
    requires var config := FirstMatch(RateLimits, r.url.pathname);
      !CheckRateLimit(store, ClientId(r, agentTag), config.limit, config.window, now).1.allowed
    ensures var id := ClientId(r, agentTag);
      var out := Decide(store, r, isProduction, now, agentTag);
      && out.0 == Purge(store, now)
      && out.1 == TooManyRequests(store[id].resetTime, now)
      && out.1.status == 429
      && RetryAfterSeconds(store[id].resetTime, now) >= 1
  {
    var id := ClientId(r, agentTag);
    var config := FirstMatch(RateLimits, r.url.pathname);
    RateLimitCases(store, id, config.limit, config.window, now);
  }

  /** A request blocked for its URL or body has still used up a slot. */
  lemma BlockedStillCounts(store: map<string, RateLimitEntry>, r: Request, isProduction: bool, now: int,
                           agentTag: string -> string)
    requires !(isProduction && r.url.protocol == "http:")
    requires Suspicious(Href(r.url)) || Suspicious(r.bodyText)
    requires var config := FirstMatch(RateLimits, r.url.pathname);
      CheckRateLimit(store, ClientId(r, agentTag), config.limit, config.window, now).1.allowed
    ensures var id := ClientId(r, agentTag);
      var config := FirstMatch(RateLimits, r.url.pathname);
      var out := Decide(store, r, isProduction, now, agentTag);
      && out == (CheckRateLimit(store, id, config.limit, config.window, now).0, Blocked())
      && out.0[id].count == (if id in Purge(store, now) then store[id].count + 1 else 1)
  {
    var id := ClientId(r, agentTag);
    var config := FirstMatch(RateLimits, r.url.pathname);
    RateLimitCases(store, id, config.limit, config.window, now);
  }

  /** An allowed, unsuspicious request passes with every security header
      and the three rate-limit headers. */
  lemma AllowedPasses(store: map<string, RateLimitEntry>, r: Request, isProduction: bool, now: int,
                      agentTag: string -> string)
    requires !(isProduction && r.url.protocol == "http:")
    requires !Suspicious(Href(r.url)) && !Suspicious(r.bodyText)
    requires var config := FirstMatch(RateLimits, r.url.pathname);
      CheckRateLimit(store, ClientId(r, agentTag), config.limit, config.window, now).1.allowed
    ensures var out := Decide(store, r, isProduction, now, agentTag);
      var config := FirstMatch(RateLimits, r.url.pathname);
      var check := CheckRateLimit(store, ClientId(r, agentTag), config.limit, config.window, now).1;
      && out.1.Next?
      && SecurityHeaders <= out.1.headers
      && ("X-RateLimit-Limit", IntToString(config.limit)) in out.1.headers
      && ("X-RateLimit-Remaining", IntToString(check.remaining)) in out.1.headers
      && ("X-RateLimit-Reset", IntToString(CeilDiv(check.resetTime, 1000))) in out.1.headers
  {
    var config := FirstMatch(RateLimits, r.url.pathname);
    var check := CheckRateLimit(store, ClientId(r, agentTag), config.limit, config.window, now).1;
    var h := SecurityHeaders + RateLimitHeaders(config.limit, check);
    assert h[|SecurityHeaders|] == ("X-RateLimit-Limit", IntToString(config.limit));
    assert h[|SecurityHeaders| + 1] == ("X-RateLimit-Remaining", IntToString(check.remaining));
    assert h[|SecurityHeaders| + 2] == ("X-RateLimit-Reset", IntToString(CeilDiv(check.resetTime, 1000)));
  }

  /** The counter is keyed by client only: five earlier API calls in the
      window leave the contact form refused while other API paths still pass. */
  lemma CounterSharedAcrossPaths(store: map<string, RateLimitEntry>, r: Request, now: int,
                                 agentTag: string -> string)
    requires r.url.protocol == "https:"
    requires var id := ClientId(r, agentTag);
      id in store && store[id].count == 5 && store[id].resetTime > now
    ensures "/api/contact" <= r.url.pathname ==>
      Decide(store, r, true, now, agentTag).1.Json? && Decide(store, r, true, now, agentTag).1.status == 429
    ensures "/api/" <= r.url.pathname && !("/api/contact" <= r.url.pathname) ==>
      Decide(store, r, true, now, agentTag).0[ClientId(r, agentTag)].count == 6
  {
    RateConfigByPrefix(r.url.pathname);
  }

  // ---------------------------------------------------------------------
  // The middleware over the shared limiter
  // ---------------------------------------------------------------------

  /** `middleware`, with `isProduction`, `Date.now()` and the user-agent
      encoding passed in; the limiter's store is updated in place. */
  method HandleRequest(limiter: RateLimiter, r: Request, isProduction: bool, now: int,
                       agentTag: string -> string) returns (response: Response)
    modifies limiter
    ensures (limiter.store, response) == Decide(old(limiter.store), r, isProduction, now, agentTag)
  {
    if isProduction && r.url.protocol == "http:" {
      return Redirect(r.url.(protocol := "https:"));
    }
    var headers := SecurityHeaders;
    var clientIp := ClientIp(r.forwardedFor, r.realIp);
    var clientId := clientIp + "-" + agentTag(UserAgentOf(r));
    var config := SelectRateConfig(r.url.pathname);
    var rateCheck := limiter.CheckRateLimitAt(clientId, config.limit, config.window, now);
    if !rateCheck.allowed {
      return TooManyRequests(rateCheck.resetTime, now);
    }
    headers := headers + RateLimitHeaders(config.limit, rateCheck);
    if Suspicious(Href(r.url)) || Suspicious(r.bodyText) {
      return Blocked();
    }
    return Next(headers);
  }
}
