/**
 * The security helpers: the character-level sanitisers applied to form
 * input, the CSRF token comparison, the security headers, and the
 * fixed-window rate limiter over an in-memory store keyed by client.
 */
module Security {
  import opened Text

  // ---------------------------------------------------------------------
  // stripHtmlTags / sanitizeHtml
  // ---------------------------------------------------------------------

  /** `replace(/<[^>]*>/g, '')`: each `<` that has a `>` somewhere after it
      starts a tag running to the first such `>`, and the tag is deleted;
      a `<` with no `>` after it is kept. */
  function StripTags(s: string): (r: string)
    ensures |r| <= |s|
    ensures forall i :: 0 <= i < |r| ==> r[i] in s
    ensures forall i, j :: 0 <= i < j < |r| && r[i] == '<' ==> r[j] != '>'
    ensures '<' !in s ==> r == s
    decreases |s|
  {
    if s == [] then []
    else if s[0] == '<' && '>' in s[1..] then
      StripTags(s[1..][IndexOf(s[1..], '>') + 1..])
    else
      [s[0]] + StripTags(s[1..])
  }

  /** The entity decoding chain, in the source's order. */
  function DecodeEntities(s: string): string
  {
    var lt := ReplaceAll(s, "&lt;", "<");
    var gt := ReplaceAll(lt, "&gt;", ">");
    var amp := ReplaceAll(gt, "&amp;", "&");
    var quot := ReplaceAll(amp, "&quot;", "\"");
    var apos := ReplaceAll(quot, "&#x27;", "'");
    ReplaceAll(apos, "&#x2F;", "/")
  }

  /** `stripHtmlTags`: empty input gives the empty string; otherwise tags
      are removed and then entities decoded. */
  function StripHtmlTags(input: string): string
  {
    if input == [] then [] else DecodeEntities(StripTags(input))
  }

  /** `sanitizeHtml`. */
  function SanitizeHtml(dirty: string): string
  {
    StripHtmlTags(dirty)
  }

  /** Text without tags or entity-introducing `&` passes through untouched. */
  lemma PlainTextUnchanged(s: string)
    requires '<' !in s && '&' !in s
    ensures SanitizeHtml(s) == s
  {
    if s != [] {
      AmpersandFree(s, "&lt;");
      ReplaceAllAbsent(s, "&lt;", "<");
      AmpersandFree(s, "&gt;");
      ReplaceAllAbsent(s, "&gt;", ">");
      LaterEntitiesAbsent(s);
    }
  }

  /** A pattern that starts with `&` does not occur in text without `&`. */
  lemma {:induction false} AmpersandFree(s: string, p: string)
    requires '&' !in s && p != [] && p[0] == '&'
    ensures !Contains(s, p)
    decreases |s|
  {
    if s != [] {
      assert !(p <= s);
      AmpersandFree(s[1..], p);
    }
  }

  lemma ReplaceAllHit(p: string, t: string, rep: string)
    requires p != []
    ensures ReplaceAll(p + t, p, rep) == rep + ReplaceAll(t, p, rep)
  {
    assert p <= p + t;
    assert (p + t)[|p|..] == t;
  }

  lemma ReplaceAllMiss(c: char, t: string, p: string, rep: string)
    requires p != [] && (p[0] != c || !(p <= [c] + t))
    ensures ReplaceAll([c] + t, p, rep) == [c] + ReplaceAll(t, p, rep)
  {
    assert ([c] + t)[0] == c;
    assert ([c] + t)[1..] == t;
  }

  lemma DecodeLtStep()
    ensures ReplaceAll("&lt;b&gt;", "&lt;", "<") == "<b&gt;"
  {
    calc {
      ReplaceAll("&lt;b&gt;", "&lt;", "<");
      { assert "&lt;b&gt;" == "&lt;" + "b&gt;"; }
      ReplaceAll("&lt;" + "b&gt;", "&lt;", "<");
      { ReplaceAllHit("&lt;", "b&gt;", "<"); }
      "<" + ReplaceAll("b&gt;", "&lt;", "<");
      { assert "b&gt;" == ['b'] + "&gt;";
        ReplaceAllMiss('b', "&gt;", "&lt;", "<"); }
      "<" + (['b'] + ReplaceAll("&gt;", "&lt;", "<"));
      { assert "&gt;" == ['&'] + "gt;";
        assert !("&lt;" <= "&gt;") by { assert "&lt;"[1] != "&gt;"[1]; }
        ReplaceAllMiss('&', "gt;", "&lt;", "<"); }
      "<" + (['b'] + (['&'] + ReplaceAll("gt;", "&lt;", "<")));
      { AmpersandFree("gt;", "&lt;");
        ReplaceAllAbsent("gt;", "&lt;", "<"); }
      "<" + (['b'] + (['&'] + "gt;"));
      "<b&gt;";
    }
  }

  lemma DecodeGtStep()
    ensures ReplaceAll("<b&gt;", "&gt;", ">") == "<b>"
  {
    assert "<b&gt;" == ['<'] + (['b'] + ("&gt;" + []));
    ReplaceAllMiss('<', ['b'] + ("&gt;" + []), "&gt;", ">");
    ReplaceAllMiss('b', "&gt;" + [], "&gt;", ">");
    ReplaceAllHit("&gt;", [], ">");
  }

  /** The remaining decoding steps leave text without `&` alone. */
  lemma LaterEntitiesAbsent(s: string)
    requires '&' !in s
    ensures ReplaceAll(ReplaceAll(ReplaceAll(ReplaceAll(s, "&amp;", "&"), "&quot;", "\""), "&#x27;", "'"), "&#x2F;", "/") == s
  {
    AmpersandFree(s, "&amp;");
    ReplaceAllAbsent(s, "&amp;", "&");
    AmpersandFree(s, "&quot;");
    ReplaceAllAbsent(s, "&quot;", "\"");
    AmpersandFree(s, "&#x27;");
    ReplaceAllAbsent(s, "&#x27;", "'");
    AmpersandFree(s, "&#x2F;");
    ReplaceAllAbsent(s, "&#x2F;", "/");
  }

  /** Decoding runs after stripping, so encoded markup comes back as markup:
      `&lt;b&gt;` is returned as `<b>`. */
  lemma DecodedMarkupSurvives()
    ensures SanitizeHtml("&lt;b&gt;") == "<b>"
  {
    calc {
      SanitizeHtml("&lt;b&gt;");
      DecodeEntities(StripTags("&lt;b&gt;"));
      { assert '<' !in "&lt;b&gt;"; }
      DecodeEntities("&lt;b&gt;");
      { DecodeLtStep();
        DecodeGtStep(); }
      ReplaceAll(ReplaceAll(ReplaceAll(ReplaceAll("<b>", "&amp;", "&"), "&quot;", "\""), "&#x27;", "'"), "&#x2F;", "/");
      { LaterEntitiesAbsent("<b>"); }
      "<b>";
    }
  }

  // ---------------------------------------------------------------------
  // sanitizeText
  // ---------------------------------------------------------------------

  /** `replace(/<lit>/gi, '')` for a lower-case ASCII literal. */
  function RemoveIgnoreCase(s: string, pat: string): (r: string)
    requires pat != []
    ensures |r| <= |s|
    ensures forall i :: 0 <= i < |r| ==> r[i] in s
    decreases |s|
  {
    if s == [] then []
    else if |pat| <= |s| && Lower(s[..|pat|]) == pat then RemoveIgnoreCase(s[|pat|..], pat)
    else [s[0]] + RemoveIgnoreCase(s[1..], pat)
  }

  /** The length of the run of word characters at the start of `s`. */
  function WordRun(s: string): (n: nat)
    ensures n <= |s|
    ensures forall i :: 0 <= i < n ==> IsWordChar(s[i])
    ensures n < |s| ==> !IsWordChar(s[n])
  {
    if s != [] && IsWordChar(s[0]) then 1 + WordRun(s[1..]) else 0
  }

  /** Where `/on\w+=/i` matches at the start of `s`, the length of the match. */
  function HandlerMatch(s: string): (n: nat)
    ensures n == 0 || (3 <= n <= |s| && s[n - 1] == '=')
  {
    if |s| >= 2 && LowerChar(s[0]) == 'o' && LowerChar(s[1]) == 'n' then
      var w := WordRun(s[2..]);
      if w >= 1 && 2 + w < |s| && s[2 + w] == '=' then 3 + w else 0
    else 0
  }

  /** `replace(/on\w+=/gi, '')`. */
  function RemoveHandlers(s: string): (r: string)
    ensures |r| <= |s|
    ensures forall i :: 0 <= i < |r| ==> r[i] in s
    decreases |s|
  {
    if s == [] then []
    else if HandlerMatch(s) > 0 then RemoveHandlers(s[HandlerMatch(s)..])
    else [s[0]] + RemoveHandlers(s[1..])
  }

  predicate NotAngle(c: char) { c != '<' && c != '>' }

  /** A string made only of characters of `s` avoids what `s` avoids. */
  lemma CharsFromAvoid(s: string, r: string, c: char)
    requires forall i :: 0 <= i < |r| ==> r[i] in s
    requires c !in s
    ensures c !in r
  {
  }

  /** Filtering out `c` leaves no `c`. */
  lemma KeptAvoids(s: string, r: string, keep: char -> bool, c: char)
    requires r == Keep(s, keep) && !keep(c)
    ensures c !in r
  {
  }

  /** The middle of `sanitizeText`: drop angle brackets, then remove
      `javascript:` and `on…=` case-insensitively. */
  function DropDangerous(s: string): (r: string)
    ensures '<' !in r && '>' !in r
  {
    var noAngles := Keep(s, NotAngle);
    var noScheme := RemoveIgnoreCase(noAngles, "javascript:");
    var r := RemoveHandlers(noScheme);
    KeptAvoids(s, noAngles, NotAngle, '<');
    KeptAvoids(s, noAngles, NotAngle, '>');
    CharsFromAvoid(noAngles, noScheme, '<');
    CharsFromAvoid(noAngles, noScheme, '>');
    CharsFromAvoid(noScheme, r, '<');
    CharsFromAvoid(noScheme, r, '>');
    r
  }

  /** `sanitizeText`: strip tags and decode, drop angle brackets, remove
      `javascript:` and `on…=` case-insensitively, then trim. */
  function SanitizeText(input: string): (r: string)
    ensures '<' !in r && '>' !in r
    ensures r == [] || (!IsJsSpace(r[0]) && !IsJsSpace(r[|r| - 1]))
  {
    if input == [] then []
    else
      var dropped := DropDangerous(SanitizeHtml(input));
      TrimAvoids(dropped, '<');
      TrimAvoids(dropped, '>');
      Trim(dropped)
  }

  // ---------------------------------------------------------------------
  // sanitizeEmail / sanitizePhone
  // ---------------------------------------------------------------------

  /** `[\w@.-]`. */
  predicate EmailChar(c: char) { IsWordChar(c) || c == '@' || c == '.' || c == '-' }

  /** `sanitizeEmail`: lower-case, trim, keep only `[\w@.-]`. */
  function SanitizeEmail(email: string): (r: string)
    ensures forall i :: 0 <= i < |r| ==> EmailChar(r[i]) && !IsAsciiUpper(r[i])
  {
    if email == [] then [] else Keep(Trim(Lower(email)), EmailChar)
  }

  lemma EmailCharNotSpace(c: char)
    requires EmailChar(c)
    ensures !IsJsSpace(c)
  {
  }

  /** Sanitising an email address twice gives the same as once. */
  lemma SanitizeEmailIdempotent(email: string)
    ensures SanitizeEmail(SanitizeEmail(email)) == SanitizeEmail(email)
  {
    var r := SanitizeEmail(email);
    if r != [] {
      LowerOfLower(r);
      EmailCharNotSpace(r[0]);
      EmailCharNotSpace(r[|r| - 1]);
      TrimOfTrimmed(r);
      KeepAll(r, EmailChar);
      calc {
        SanitizeEmail(r);
        Keep(Trim(Lower(r)), EmailChar);
        Keep(Trim(r), EmailChar);
        Keep(r, EmailChar);
      }
    }
  }

  /** `[\d\s\-\(\)\+]`. */
  predicate PhoneChar(c: char)
  {
    IsDigit(c) || IsJsSpace(c) || c == '-' || c == '(' || c == ')' || c == '+'
  }

  /** `sanitizePhone`: keep only digits, white space and `-()+`, then trim. */
  function SanitizePhone(phone: string): (r: string)
    ensures forall i :: 0 <= i < |r| ==> PhoneChar(r[i])
    ensures r == [] || (!IsJsSpace(r[0]) && !IsJsSpace(r[|r| - 1]))
  {
    if phone == [] then []
    else
      var kept := Keep(phone, PhoneChar);
      var t := Trim(kept);
      TrimKeepsAll(kept, PhoneChar);
      t
  }

  /** Sanitising a phone number twice gives the same as once. */
  lemma SanitizePhoneIdempotent(phone: string)
    ensures SanitizePhone(SanitizePhone(phone)) == SanitizePhone(phone)
  {
    var r := SanitizePhone(phone);
    if r != [] {
      KeepAll(r, PhoneChar);
      TrimOfTrimmed(r);
    }
  }

  // ---------------------------------------------------------------------
  // validateCSRFToken and the security headers
  // ---------------------------------------------------------------------

  /** `validateCSRFToken`: the tokens are equal and longer than ten characters. */
  predicate ValidateCsrfToken(token: string, sessionToken: string)
  {
    token == sessionToken && |token| > 10
  }

  /** The check does not depend on which side is the session's, and a token
      of ten characters or fewer is refused even against itself. */
  lemma CsrfRule(token: string, sessionToken: string)
    ensures ValidateCsrfToken(token, sessionToken) <==> ValidateCsrfToken(sessionToken, token)
    ensures ValidateCsrfToken(token, sessionToken) ==> |sessionToken| > 10
    ensures ValidateCsrfToken(token, token) <==> |token| > 10
  {
  }

  /** `securityHeaders`, in declaration order. */
  const SecurityHeaders: seq<(string, string)> := [
    ("X-Content-Type-Options", "nosniff"),
    ("X-Frame-Options", "DENY"),
    ("X-XSS-Protection", "1; mode=block"),
    ("Referrer-Policy", "strict-origin-when-cross-origin"),
    ("Cache-Control", "no-store, no-cache, must-revalidate, proxy-revalidate"),
    ("Pragma", "no-cache"),
    ("Expires", "0")
  ]

  // ---------------------------------------------------------------------
  // checkRateLimit
  // ---------------------------------------------------------------------

  datatype RateLimitEntry = RateLimitEntry(count: int, resetTime: int)
  datatype RateLimitResult = RateLimitResult(allowed: bool, remaining: int, resetTime: int)

  /** The store with every entry whose window has ended (`resetTime <= now`) deleted. */
  function Purge(store: map<string, RateLimitEntry>, now: int): (live: map<string, RateLimitEntry>)
    ensures forall k :: k in live <==> k in store && store[k].resetTime > now
    ensures forall k :: k in live ==> live[k] == store[k]
  {
    map k | k in store && store[k].resetTime > now :: store[k]
  }

  /** `checkRateLimit` at time `now`: the new store and the result. */
  function CheckRateLimit(store: map<string, RateLimitEntry>, identifier: string, limit: int,
                          windowMs: int, now: int): (out: (map<string, RateLimitEntry>, RateLimitResult))
    ensures identifier in out.0
    ensures forall k :: k != identifier ==>
      (k in out.0 <==> k in store && store[k].resetTime > now)
      && (k in out.0 ==> out.0[k] == store[k])
    ensures out.1.allowed <==>
      identifier !in store || store[identifier].resetTime <= now || store[identifier].count < limit
    ensures out.1.resetTime == out.0[identifier].resetTime
  {
    var live := Purge(store, now);
    if identifier !in live then
      (live[identifier := RateLimitEntry(1, now + windowMs)], RateLimitResult(true, limit - 1, now + windowMs))
    else
      var entry := live[identifier];
      if entry.resetTime <= now then
        (live[identifier := RateLimitEntry(1, now + windowMs)], RateLimitResult(true, limit - 1, now + windowMs))
      else if entry.count >= limit then
        (live, RateLimitResult(false, 0, entry.resetTime))
      else
        var next := entry.(count := entry.count + 1);
        (live[identifier := next], RateLimitResult(true, limit - next.count, next.resetTime))
  }

  /** The purge runs first, so the "window expired" branch is never taken. */
  lemma ExpiredBranchUnreachable(store: map<string, RateLimitEntry>, identifier: string, now: int)
    ensures identifier in Purge(store, now) ==> Purge(store, now)[identifier].resetTime > now
  {
  }

  /** A first request is allowed with `limit - 1` remaining, even for a limit
      of zero or less; a denial leaves the store as purged. */
  lemma RateLimitCases(store: map<string, RateLimitEntry>, identifier: string, limit: int, windowMs: int, now: int)
    ensures identifier !in Purge(store, now) ==>
      CheckRateLimit(store, identifier, limit, windowMs, now) ==
        (Purge(store, now)[identifier := RateLimitEntry(1, now + windowMs)],
         RateLimitResult(true, limit - 1, now + windowMs))
    ensures !CheckRateLimit(store, identifier, limit, windowMs, now).1.allowed ==>
      CheckRateLimit(store, identifier, limit, windowMs, now) ==
        (Purge(store, now), RateLimitResult(false, 0, store[identifier].resetTime))
    ensures identifier in Purge(store, now) && store[identifier].count < limit ==>
      var out := CheckRateLimit(store, identifier, limit, windowMs, now);
      && out.0[identifier] == store[identifier].(count := store[identifier].count + 1)
      && out.1 == RateLimitResult(true, limit - out.0[identifier].count, store[identifier].resetTime)
  {
  }

  /** Calls from one client at the given times, each with the same limit and window. */
  function Calls(store: map<string, RateLimitEntry>, identifier: string, limit: int, windowMs: int,
                 times: seq<int>): (map<string, RateLimitEntry>, seq<RateLimitResult>)
    decreases |times|
  {
    if times == [] then (store, [])
    else
      NextCall(Calls(store, identifier, limit, windowMs, times[..|times| - 1]), identifier, limit, windowMs,
               times[|times| - 1])
  }

  /** One more call on the store the earlier calls left, its result appended. */
  function NextCall(prev: (map<string, RateLimitEntry>, seq<RateLimitResult>), identifier: string, limit: int,
                    windowMs: int, now: int): (map<string, RateLimitEntry>, seq<RateLimitResult>)
  {
    var step := CheckRateLimit(prev.0, identifier, limit, windowMs, now);
    (step.0, prev.1 + [step.1])
  }

  /** The last call acts on the store the earlier ones left. */
  lemma CallsLast(store: map<string, RateLimitEntry>, identifier: string, limit: int, windowMs: int,
                  times: seq<int>)
    requires |times| > 0
    ensures var prev := Calls(store, identifier, limit, windowMs, times[..|times| - 1]);
      var step := CheckRateLimit(prev.0, identifier, limit, windowMs, times[|times| - 1]);
      Calls(store, identifier, limit, windowMs, times) == (step.0, prev.1 + [step.1])
  {
  }

  /** One call inside an open window: counted while below the limit,
      denied with the entry unchanged once at it. */
  lemma WindowStep(store: map<string, RateLimitEntry>, identifier: string, limit: int, windowMs: int,
                   now: int, before: int, reset: int)
    requires 0 <= before <= limit
    requires identifier in store && store[identifier] == RateLimitEntry(before, reset) && reset > now
    ensures var out := CheckRateLimit(store, identifier, limit, windowMs, now);
      && out.0[identifier] == RateLimitEntry(if before < limit then before + 1 else limit, reset)
      && out.1 == if before < limit then RateLimitResult(true, limit - (before + 1), reset)
                  else RateLimitResult(false, 0, reset)
  {
    assert identifier in Purge(store, now);
    RateLimitCases(store, identifier, limit, windowMs, now);
  }

  /** What the call at position `i` of a window should get: allowed with
      `limit - (i + 1)` remaining while below the limit, denied with 0 after. */
  function WindowResult(i: nat, limit: int, reset: int): RateLimitResult
  {
    if i < limit then RateLimitResult(true, limit - (i + 1), reset) else RateLimitResult(false, 0, reset)
  }

  /** After `n` calls in one window: the entry counts `n` up to the limit,
      and the results are those `WindowResult` gives, in order. */
  predicate WindowOutcome(out: (map<string, RateLimitEntry>, seq<RateLimitResult>), identifier: string,
                          n: nat, limit: int, reset: int)
  {
    && |out.1| == n
    && identifier in out.0
    && out.0[identifier] == RateLimitEntry(if n < limit then n else limit, reset)
    && forall i :: 0 <= i < n ==> out.1[i] == WindowResult(i, limit, reset)
  }

  /** Within one window that starts with no live entry, the first `limit`
      calls are allowed with `limit - 1, limit - 2, …` remaining and every
      later call is denied with 0 remaining; every call reports the same
      reset time, fixed by the first; and the count never exceeds the limit. */
  lemma {:induction false} OneWindow(store: map<string, RateLimitEntry>, identifier: string, limit: int,
                                     windowMs: int, times: seq<int>)
    requires limit >= 1 && |times| > 0
    requires identifier !in Purge(store, times[0])
    requires forall i :: 0 <= i < |times| ==> times[i] < times[0] + windowMs
    ensures WindowOutcome(Calls(store, identifier, limit, windowMs, times), identifier, |times|, limit,
                          times[0] + windowMs)
    decreases |times|
  {
    var n := |times|;
    var reset := times[0] + windowMs;
    if n == 1 {
      FirstWindowCall(store, identifier, limit, windowMs, times);
    } else {
      var init := times[..n - 1];
      assert init[0] == times[0];
      OneWindow(store, identifier, limit, windowMs, init);
      WindowCall(store, identifier, limit, windowMs, times, reset);
      WindowOutcomeStep(Calls(store, identifier, limit, windowMs, init).1,
                        Calls(store, identifier, limit, windowMs, times), identifier, n, limit, reset);
    }
  }

  /** The first call of a window creates the entry with count 1 and is allowed. */
  lemma FirstWindowCall(store: map<string, RateLimitEntry>, identifier: string, limit: int, windowMs: int,
                        times: seq<int>)
    requires limit >= 1 && |times| == 1 && identifier !in Purge(store, times[0])
    ensures WindowOutcome(Calls(store, identifier, limit, windowMs, times), identifier, 1, limit,
                          times[0] + windowMs)
  {
    assert times[..0] == [];
    RateLimitCases(store, identifier, limit, windowMs, times[0]);
    CallsLast(store, identifier, limit, windowMs, times);
    WindowOutcomeStep([], Calls(store, identifier, limit, windowMs, times), identifier, 1, limit, times[0] + windowMs);
  }

  /** A later call of the window, made while the entry left by the earlier
      calls is still live, counts up to the limit and appends the result its
      position calls for. */
  lemma WindowCall(store: map<string, RateLimitEntry>, identifier: string, limit: int, windowMs: int,
                   times: seq<int>, reset: int)
    requires limit >= 1 && |times| > 1 && times[|times| - 1] < reset
    requires var prev := Calls(store, identifier, limit, windowMs, times[..|times| - 1]);
      && identifier in prev.0
      && prev.0[identifier] == RateLimitEntry(if |times| - 1 < limit then |times| - 1 else limit, reset)
    ensures var out := Calls(store, identifier, limit, windowMs, times);
      && identifier in out.0
      && out.0[identifier] == RateLimitEntry(if |times| < limit then |times| else limit, reset)
      && out.1 == Calls(store, identifier, limit, windowMs, times[..|times| - 1]).1
                  + [WindowResult(|times| - 1, limit, reset)]
  {
    var n := |times|;
    var prev := Calls(store, identifier, limit, windowMs, times[..n - 1]);
    var before := if n - 1 < limit then n - 1 else limit;
    WindowStep(prev.0, identifier, limit, windowMs, times[n - 1], before, reset);
    CallsLast(store, identifier, limit, windowMs, times);
  }

  /** One more call in the window, getting the entry and result its position
      calls for, extends the outcome. */
  lemma WindowOutcomeStep(prevResults: seq<RateLimitResult>, out: (map<string, RateLimitEntry>, seq<RateLimitResult>),
                          identifier: string, n: nat, limit: int, reset: int)
    requires n >= 1 && |prevResults| == n - 1
    requires forall i :: 0 <= i < n - 1 ==> prevResults[i] == WindowResult(i, limit, reset)
    requires identifier in out.0 && out.0[identifier] == RateLimitEntry(if n < limit then n else limit, reset)
    requires out.1 == prevResults + [WindowResult(n - 1, limit, reset)]
    ensures WindowOutcome(out, identifier, n, limit, reset)
  {
  }

  /** Consequently at most `limit` calls in a window are allowed. */
  function AllowedCount(results: seq<RateLimitResult>): (n: nat)
    ensures n <= |results|
  {
    if results == [] then 0
    else AllowedCount(results[..|results| - 1]) + (if results[|results| - 1].allowed then 1 else 0)
  }

  lemma {:induction false} AllowedCountOfPrefixRule(results: seq<RateLimitResult>, limit: nat)
    requires forall i :: 0 <= i < |results| ==> (results[i].allowed <==> i < limit)
    ensures AllowedCount(results) == if |results| < limit then |results| else limit
    decreases |results|
  {
    if results != [] {
      AllowedCountOfPrefixRule(results[..|results| - 1], limit);
    }
  }

  lemma AtMostLimitPerWindow(store: map<string, RateLimitEntry>, identifier: string, limit: int,
                             windowMs: int, times: seq<int>)
    requires limit >= 1 && |times| > 0
    requires identifier !in Purge(store, times[0])
    requires forall i :: 0 <= i < |times| ==> times[i] < times[0] + windowMs
    ensures AllowedCount(Calls(store, identifier, limit, windowMs, times).1) <= limit
  {
    OneWindow(store, identifier, limit, windowMs, times);
    AllowedCountOfPrefixRule(Calls(store, identifier, limit, windowMs, times).1, limit);
  }

  /** The module-level `rateLimitStore` and the function that updates it in place. */
  class RateLimiter {
    var store: map<string, RateLimitEntry>

    constructor ()
      ensures store == map[]
    {
      store := map[];
    }

    /** `checkRateLimit`, with `Date.now()` passed in as `now`. */
    method CheckRateLimitAt(identifier: string, limit: int, windowMs: int, now: int)
      returns (result: RateLimitResult)
      modifies this
      ensures (store, result) == CheckRateLimit(old(store), identifier, limit, windowMs, now)
    {
      ghost var original := store;
      var keys := store.Keys;
      while keys != {}
        invariant keys <= original.Keys
        invariant forall k :: k in store <==> k in original && (k in keys || original[k].resetTime > now)
        invariant forall k :: k in store ==> store[k] == original[k]
        decreases keys
      {
        var k :| k in keys;
        if store[k].resetTime <= now {
          store := store - {k};
        }
        keys := keys - {k};
      }
      assert store == Purge(original, now);
      if identifier !in store {
        store := store[identifier := RateLimitEntry(1, now + windowMs)];
        return RateLimitResult(true, limit - 1, now + windowMs);
      }
      var entry := store[identifier];
      if entry.resetTime <= now {
        // The source resets an expired entry here; the purge above has
        // already deleted every such entry, so this branch is dead.
        assert false;
      }
      if entry.count >= limit {
        return RateLimitResult(false, 0, entry.resetTime);
      }
      entry := entry.(count := entry.count + 1);
      store := store[identifier := entry];
      return RateLimitResult(true, limit - entry.count, entry.resetTime);
    }
  }
}
