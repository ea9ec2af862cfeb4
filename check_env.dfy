/**
 * The pre-build environment checker: rules over the process environment
 * that collect errors and warnings, a reader for the keys listed in
 * `.env.example`, the security-configuration check, and the exit code of
 * the whole run. The file system is replaced by what it would report.
 */
module CheckEnv {
  import opened Wrappers
  import opened Text

  // ---------------------------------------------------------------------
  // The environment
  // ---------------------------------------------------------------------

  /** `process.env`, its entries in enumeration order. */
  type Env = seq<(string, string)>

  /** `process.env[name]`, with an unset variable read as the empty string:
      both are falsy and the checker never tells them apart. */
  function Get(env: Env, name: string): string
  {
    if env == [] then "" else if env[0].0 == name then env[0].1 else Get(env[1..], name)
  }

  /** The variable is present and non-empty. */
  predicate IsSet(env: Env, name: string)
  {
    Get(env, name) != ""
  }

  /** `Object.keys(process.env)`. */
  function Keys(env: Env): seq<string>
  {
    seq(|env|, i requires 0 <= i < |env| => env[i].0)
  }

  predicate IsProductionEnv(env: Env)
  {
    Get(env, "NODE_ENV") == "production"
  }

  const RequiredProdVars: seq<string> :=
    ["NEXT_PUBLIC_SUPABASE_URL", "NEXT_PUBLIC_SUPABASE_ANON_KEY", "SUPABASE_SERVICE_ROLE_KEY", "NEXT_PUBLIC_APP_URL"]

  const RecommendedVars: seq<string> := ["CSRF_SECRET", "RATE_LIMIT_SECRET"]

  // ---------------------------------------------------------------------
  // Findings and their text
  // ---------------------------------------------------------------------

  /** Every error or warning the checker can report. */
  datatype Finding =
    | MissingRequired(name: string)
    | MissingForProduction(name: string)
    | MissingRecommended(name: string)
    | InvalidUrl(name: string)
    | HttpsRequired
    | SensitiveExposure(key: string)
    | EnvLocalMissing
    | EnvExampleMissing
    | EnvExampleUnreadable
    | MissingFromExample(name: string)
    | MiddlewareMissing
    | CspMissing
    | FrameOptionsMissing

  /** The line printed for a finding. */
  function Message(f: Finding): string
  {
    match f
    case MissingRequired(n) => "Missing required environment variable: " + n
    case MissingForProduction(n) => "Missing environment variable: " + n + " (required for production)"
    case MissingRecommended(n) => "Missing recommended environment variable: " + n
    case InvalidUrl(n) => n + " is not a valid URL"
    case HttpsRequired => "NEXT_PUBLIC_APP_URL must use HTTPS in production"
    case SensitiveExposure(k) => "Potentially sensitive data exposed in public environment variable: " + k
    case EnvLocalMissing => ".env.local file not found - create one based on .env.example"
    case EnvExampleMissing => ".env.example file not found - this helps other developers"
    case EnvExampleUnreadable => "Could not read .env.example file"
    case MissingFromExample(n) => n + " missing from .env.example"
    case MiddlewareMissing => "Security middleware not found at src/middleware.ts"
    case CspMissing => "Content Security Policy not found in next.config.ts"
    case FrameOptionsMissing => "X-Frame-Options header not found in next.config.ts"
  }

  /** The findings of one check, errors and warnings apart. */
  datatype CheckResult = CheckResult(errors: seq<Finding>, warnings: seq<Finding>)

  /** The process exits with 1 exactly when there are errors. */
  function ExitCode(r: CheckResult): int
  {
    if r.errors != [] then 1 else 0
  }

  // ---------------------------------------------------------------------
  // Missing variables
  // ---------------------------------------------------------------------

  /** One finding, made by `mk`, for each of `names` that `present` rejects, in order. */
  function Missing(names: seq<string>, present: string -> bool, mk: string -> Finding): seq<Finding>
    decreases |names|
  {
    if names == [] then []
    else
      var last := names[|names| - 1];
      Missing(names[..|names| - 1], present, mk) + (if present(last) then [] else [mk(last)])
  }

  /** Extending the names by one adds that name's finding, if any. */
  lemma MissingPrefixStep(names: seq<string>, present: string -> bool, mk: string -> Finding, i: nat)
    requires i < |names|
    ensures Missing(names[..i + 1], present, mk)
      == Missing(names[..i], present, mk) + (if present(names[i]) then [] else [mk(names[i])])
  {
    assert names[..i + 1][..i] == names[..i];
  }

  /** The presence tests and finding makers the checks pass to `Missing`. */
  function SetIn(env: Env): string -> bool
  {
    n => IsSet(env, n)
  }

  function ListedIn(keys: seq<string>): string -> bool
  {
    n => n in keys
  }

  const AsMissingRequired: string -> Finding := n => MissingRequired(n)
  const AsMissingForProduction: string -> Finding := n => MissingForProduction(n)
  const AsMissingRecommended: string -> Finding := n => MissingRecommended(n)
  const AsMissingFromExample: string -> Finding := n => MissingFromExample(n)

  /** A finding is reported exactly for the names that are absent, one each at most. */
  lemma {:induction false} MissingSpec(names: seq<string>, present: string -> bool, mk: string -> Finding)
    ensures |Missing(names, present, mk)| <= |names|
    ensures forall m :: m in Missing(names, present, mk) <==> exists n :: n in names && !present(n) && m == mk(n)
    decreases |names|
  {
    if names != [] {
      var init := names[..|names| - 1];
      var last := names[|names| - 1];
      MissingSpec(init, present, mk);
      assert names == init + [last];
      forall m
        ensures m in Missing(names, present, mk) <==> exists n :: n in names && !present(n) && m == mk(n)
      {
        if m in Missing(names, present, mk) && m !in Missing(init, present, mk) {
          assert !present(last) && m == mk(last);
        }
        if exists n :: n in names && !present(n) && m == mk(n) {
          var n :| n in names && !present(n) && m == mk(n);
          if n != last {
            assert n in init;
          }
        }
      }
    }
  }

  // ---------------------------------------------------------------------
  // Sensitive names
  // ---------------------------------------------------------------------

  /** A case-insensitive pattern `/w/i` or `/a.*b/i`, written in lower case. */
  datatype Pattern = Word(w: string) | Pair(first: string, second: string)

  const SensitivePatterns: seq<Pattern> :=
    [Word("password"), Pair("secret", "key"), Pair("private", "key"), Pair("api", "key")]

  predicate PatternMatches(p: Pattern, key: string)
  {
    match p
    case Word(w) => ContainsIgnoreCase(key, w)
    case Pair(a, b) => FollowedOnLine(Lower(key), a, b)
  }

  predicate IsPublic(key: string)
  {
    "NEXT_PUBLIC_" <= key
  }

  /** How many of `ps` the key matches. */
  function MatchCount(key: string, ps: seq<Pattern>): nat
    decreases |ps|
  {
    if ps == [] then 0
    else MatchCount(key, ps[..|ps| - 1]) + (if PatternMatches(ps[|ps| - 1], key) then 1 else 0)
  }

  /** One exposure finding per pattern of `ps` the key matches, in pattern order. */
  function PatternFindings(key: string, ps: seq<Pattern>): seq<Finding>
    decreases |ps|
  {
    if ps == [] then []
    else
      PatternFindings(key, ps[..|ps| - 1])
      + (if PatternMatches(ps[|ps| - 1], key) then [SensitiveExposure(key)] else [])
  }

  /** What one key contributes: nothing unless it is public. */
  function KeyExposure(key: string, ps: seq<Pattern>): seq<Finding>
  {
    if IsPublic(key) then PatternFindings(key, ps) else []
  }

  /** The findings `f` gives for each key, concatenated in key order. */
  function ConcatMap(keys: seq<string>, f: string -> seq<Finding>): seq<Finding>
    decreases |keys|
  {
    if keys == [] then [] else ConcatMap(keys[..|keys| - 1], f) + f(keys[|keys| - 1])
  }

  function ExposureOf(ps: seq<Pattern>): string -> seq<Finding>
  {
    key => KeyExposure(key, ps)
  }

  /** The exposure findings over all keys, in key order. */
  function ExposureFindings(keys: seq<string>, ps: seq<Pattern>): seq<Finding>
  {
    ConcatMap(keys, ExposureOf(ps))
  }

  /** The number of sensitive patterns a key is reported for. */
  function Hits(key: string, ps: seq<Pattern>): nat
  {
    if IsPublic(key) then MatchCount(key, ps) else 0
  }

  lemma {:induction false} PatternFindingsCount(key: string, ps: seq<Pattern>, k: string)
    ensures multiset(PatternFindings(key, ps))[SensitiveExposure(k)] == (if key == k then MatchCount(key, ps) else 0)
    ensures forall f :: f in PatternFindings(key, ps) ==> f == SensitiveExposure(key)
    decreases |ps|
  {
    if ps != [] {
      PatternFindingsCount(key, ps[..|ps| - 1], k);
    }
  }

  /** The scan reports only exposures, each of a public key it was given. */
  lemma {:induction false} ExposureKinds(keys: seq<string>, ps: seq<Pattern>)
    ensures forall f :: f in ExposureFindings(keys, ps) ==> f.SensitiveExposure? && f.key in keys && IsPublic(f.key)
    decreases |keys|
  {
    if keys != [] {
      var init := keys[..|keys| - 1];
      var last := keys[|keys| - 1];
      ExposureKinds(init, ps);
      assert keys == init + [last];
      if IsPublic(last) {
        PatternFindingsCount(last, ps, last);
      }
    }
  }

  lemma CountStep(before: int, h: int, hit: bool)
    ensures before * h + (if hit then h else 0) == (before + (if hit then 1 else 0)) * h
  {
  }

  /** What one key adds to the count of `k`'s findings. */
  lemma KeyExposureCount(key: string, ps: seq<Pattern>, k: string)
    ensures multiset(KeyExposure(key, ps))[SensitiveExposure(k)] == if key == k then Hits(k, ps) else 0
  {
    if IsPublic(key) {
      PatternFindingsCount(key, ps, k);
    }
  }

  /** The count of `x` in a concatenation is the sum of the counts. */
  lemma AbsentCountsZero<T>(a: seq<T>, x: T)
    requires x !in a
    ensures multiset(a)[x] == 0
  {
  }

  lemma MultisetCountConcat<T>(a: seq<T>, b: seq<T>, x: T)
    ensures multiset(a + b)[x] == multiset(a)[x] + multiset(b)[x]
  {
  }

  /** When each key adds `h` copies of `x` if it is `k` and none otherwise,
      the whole list holds `x` once per occurrence of `k`, times `h`. */
  lemma {:induction false} ConcatMapCount(keys: seq<string>, f: string -> seq<Finding>, x: Finding, k: string, h: nat)
    requires forall key :: multiset(f(key))[x] == if key == k then h else 0
    ensures multiset(ConcatMap(keys, f))[x] == multiset(keys)[k] * h
    decreases |keys|
  {
    if keys != [] {
      var init := keys[..|keys| - 1];
      var last := keys[|keys| - 1];
      var before := multiset(init)[k];
      assert multiset(keys)[k] == before + (if last == k then 1 else 0) by {
        assert keys == init + [last];
        MultisetCountConcat(init, [last], k);
      }
      assert multiset(ConcatMap(keys, f))[x] == before * h + (if last == k then h else 0) by {
        ConcatMapCount(init, f, x, k, h);
        MultisetCountConcat(ConcatMap(init, f), f(last), x);
      }
      CountStep(before, h, last == k);
    }
  }

  /** Each public key is reported once for every sensitive pattern it
      matches, and a key that is not public never. */
  lemma ExposureCount(keys: seq<string>, ps: seq<Pattern>, k: string)
    ensures multiset(ExposureFindings(keys, ps))[SensitiveExposure(k)] == multiset(keys)[k] * Hits(k, ps)
  {
    forall key
      ensures multiset(ExposureOf(ps)(key))[SensitiveExposure(k)] == if key == k then Hits(k, ps) else 0
    {
      KeyExposureCount(key, ps, k);
    }
    ConcatMapCount(keys, ExposureOf(ps), SensitiveExposure(k), k, Hits(k, ps));
  }

  // ---------------------------------------------------------------------
  // .env files
  // ---------------------------------------------------------------------

  /** What reading a file would give. */
  datatype FileState = Absent | Unreadable | Present(content: string)

  /** A line that `.env.example` counts as an assignment. */
  predicate IsAssignment(line: string)
  {
    '=' in line && !("#" <= line)
  }

  /** `line.split('=')[0].trim()`. */
  function ExampleKeyOf(line: string): (k: string)
    ensures '=' !in k
    ensures k == [] || (!IsJsSpace(k[0]) && !IsJsSpace(k[|k| - 1]))
  {
    var head := FirstField(line, '=');
    TrimAvoids(head, '=');
    Trim(head)
  }

  /** The key of every assignment line, in order. */
  function KeysOfLines(lines: seq<string>): seq<string>
    decreases |lines|
  {
    if lines == [] then []
    else (if IsAssignment(lines[0]) then [ExampleKeyOf(lines[0])] else []) + KeysOfLines(lines[1..])
  }

  /** The keys `.env.example` lists. */
  function ExampleKeys(content: string): seq<string>
  {
    KeysOfLines(Split(content, '\n'))
  }

  /** Every listed key comes from an assignment line. */
  lemma {:induction false} KeysOfLinesSound(lines: seq<string>)
    ensures forall k :: k in KeysOfLines(lines) ==> exists l :: l in lines && IsAssignment(l) && k == ExampleKeyOf(l)
    decreases |lines|
  {
    if lines != [] {
      var tail := lines[1..];
      KeysOfLinesSound(tail);
      assert forall l :: l in tail ==> l in lines;
    }
  }

  /** Every assignment line's key is listed. */
  lemma {:induction false} KeysOfLinesComplete(lines: seq<string>)
    ensures forall l :: l in lines && IsAssignment(l) ==> ExampleKeyOf(l) in KeysOfLines(lines)
    decreases |lines|
  {
    if lines != [] {
      var tail := lines[1..];
      KeysOfLinesComplete(tail);
      assert forall l :: l in lines ==> l == lines[0] || l in tail;
    }
  }

  /** The `.env.example` keys, read line by line. */
  lemma ExampleKeysSpec(content: string, k: string)
    ensures k in ExampleKeys(content) <==>
      exists l :: l in Split(content, '\n') && IsAssignment(l) && k == ExampleKeyOf(l)
    ensures k in ExampleKeys(content) ==> '=' !in k
  {
    KeysOfLinesSound(Split(content, '\n'));
    KeysOfLinesComplete(Split(content, '\n'));
  }

  /** `checkEnvFiles`: the warnings it adds. */
  function EnvFileWarnings(envLocalExists: bool, example: FileState): seq<Finding>
  {
    (if envLocalExists then [] else [EnvLocalMissing])
    + match example
      case Absent => [EnvExampleMissing]
      case Unreadable => [EnvExampleUnreadable]
      case Present(content) =>
        var keys := ExampleKeys(content);
        Missing(RequiredProdVars, ListedIn(keys), AsMissingFromExample)
  }

  /** `checkEnvFiles`, returning the warnings it would push. */
  method CheckEnvFiles(envLocalExists: bool, example: FileState) returns (warnings: seq<Finding>)
    ensures warnings == EnvFileWarnings(envLocalExists, example)
  {
    warnings := [];
    if !envLocalExists {
      warnings := warnings + [EnvLocalMissing];
    }
    match example {
      case Absent =>
        warnings := warnings + [EnvExampleMissing];
        return;
      case Unreadable =>
        warnings := warnings + [EnvExampleUnreadable];
      case Present(content) =>
        var missing := CheckExampleKeys(ExampleKeys(content));
        warnings := warnings + missing;
    }
  }

  /** The `REQUIRED_PROD_VARS.forEach` pass over the `.env.example` keys. */
  method CheckExampleKeys(exampleKeys: seq<string>) returns (missing: seq<Finding>)
    ensures missing == Missing(RequiredProdVars, ListedIn(exampleKeys), AsMissingFromExample)
  {
    missing := [];
    for i := 0 to |RequiredProdVars|
      invariant missing == Missing(RequiredProdVars[..i], ListedIn(exampleKeys), AsMissingFromExample)
    {
      var name := RequiredProdVars[i];
      MissingPrefixStep(RequiredProdVars, ListedIn(exampleKeys), AsMissingFromExample, i);
      if name !in exampleKeys {
        missing := missing + [MissingFromExample(name)];
      }
    }
    assert RequiredProdVars[..|RequiredProdVars|] == RequiredProdVars;
  }

  // ---------------------------------------------------------------------
  // checkEnvironmentVariables
  // ---------------------------------------------------------------------

  /** The URL check on one variable: an error when it is set and does not parse. */
  function UrlFinding(env: Env, isValidUrl: string -> bool, name: string): seq<Finding>
  {
    if IsSet(env, name) && !isValidUrl(Get(env, name)) then [InvalidUrl(name)] else []
  }

  predicate NeedsHttps(env: Env)
  {
    IsProductionEnv(env) && IsSet(env, "NEXT_PUBLIC_APP_URL") && !("https://" <= Get(env, "NEXT_PUBLIC_APP_URL"))
  }

  /** The required variables: missing ones are errors in production. */
  function RequiredErrors(env: Env): seq<Finding>
  {
    if IsProductionEnv(env) then Missing(RequiredProdVars, SetIn(env), AsMissingRequired) else []
  }

  /** ... and warnings elsewhere. */
  function RequiredWarnings(env: Env): seq<Finding>
  {
    if IsProductionEnv(env) then [] else Missing(RequiredProdVars, SetIn(env), AsMissingForProduction)
  }

  /** The recommended variables, looked at in production only. */
  function RecommendedWarnings(env: Env): seq<Finding>
  {
    if IsProductionEnv(env) then Missing(RecommendedVars, SetIn(env), AsMissingRecommended) else []
  }

  function HttpsFinding(env: Env): seq<Finding>
  {
    if NeedsHttps(env) then [HttpsRequired] else []
  }

  /** The errors of `checkEnvironmentVariables`, in the order they are
      pushed; `isValidUrl` stands for the WHATWG URL parser. */
  function EnvErrors(env: Env, isValidUrl: string -> bool): seq<Finding>
  {
    RequiredErrors(env)
    + UrlFinding(env, isValidUrl, "NEXT_PUBLIC_SUPABASE_URL")
    + UrlFinding(env, isValidUrl, "NEXT_PUBLIC_APP_URL")
    + HttpsFinding(env)
    + ExposureFindings(Keys(env), SensitivePatterns)
  }

  /** Its warnings, in the order they are pushed. */
  function EnvWarnings(env: Env, envLocalExists: bool, example: FileState): seq<Finding>
  {
    RequiredWarnings(env) + RecommendedWarnings(env) + EnvFileWarnings(envLocalExists, example)
  }

  function EnvCheck(env: Env, isValidUrl: string -> bool, envLocalExists: bool, example: FileState): CheckResult
  {
    CheckResult(EnvErrors(env, isValidUrl), EnvWarnings(env, envLocalExists, example))
  }

  /** The `REQUIRED_PROD_VARS.forEach` loop. */
  method CheckRequired(env: Env) returns (errors: seq<Finding>, warnings: seq<Finding>)
    ensures errors == RequiredErrors(env) && warnings == RequiredWarnings(env)
  {
    var isProduction := IsProductionEnv(env);
    errors := [];
    warnings := [];
    for i := 0 to |RequiredProdVars|
      invariant errors == (if isProduction then Missing(RequiredProdVars[..i], SetIn(env), AsMissingRequired) else [])
      invariant warnings == (if isProduction then [] else Missing(RequiredProdVars[..i], SetIn(env), AsMissingForProduction))
    {
      var name := RequiredProdVars[i];
      MissingPrefixStep(RequiredProdVars, SetIn(env), AsMissingRequired, i);
      MissingPrefixStep(RequiredProdVars, SetIn(env), AsMissingForProduction, i);
      if !IsSet(env, name) {
        if isProduction {
          errors := errors + [MissingRequired(name)];
        } else {
          warnings := warnings + [MissingForProduction(name)];
        }
      }
    }
    assert RequiredProdVars[..|RequiredProdVars|] == RequiredProdVars;
  }

  /** The `RECOMMENDED_VARS.forEach` loop, run in production only. */
  method CheckRecommended(env: Env) returns (warnings: seq<Finding>)
    ensures warnings == RecommendedWarnings(env)
  {
    warnings := [];
    if IsProductionEnv(env) {
      for i := 0 to |RecommendedVars|
        invariant warnings == Missing(RecommendedVars[..i], SetIn(env), AsMissingRecommended)
      {
        var name := RecommendedVars[i];
        MissingPrefixStep(RecommendedVars, SetIn(env), AsMissingRecommended, i);
        if !IsSet(env, name) {
          warnings := warnings + [MissingRecommended(name)];
        }
      }
      assert RecommendedVars[..|RecommendedVars|] == RecommendedVars;
    }
  }

  /** The scan of `Object.keys(process.env)` against the patterns. */
  method ScanKeys(keys: seq<string>, patterns: seq<Pattern>) returns (errors: seq<Finding>)
    ensures errors == ExposureFindings(keys, patterns)
  {
    errors := [];
    for i := 0 to |keys|
      invariant errors == ExposureFindings(keys[..i], patterns)
    {
      var key := keys[i];
      assert keys[..i + 1] == keys[..i] + [key];
      if "NEXT_PUBLIC_" <= key {
        var start := errors;
        for j := 0 to |patterns|
          invariant errors == start + PatternFindings(key, patterns[..j])
        {
          assert patterns[..j + 1] == patterns[..j] + [patterns[j]];
          if PatternMatches(patterns[j], key) {
            errors := errors + [SensitiveExposure(key)];
          }
        }
        assert patterns[..|patterns|] == patterns;
      }
    }
    assert keys[..|keys|] == keys;
  }

  /** `checkEnvironmentVariables`, returning what it collects. */
  method CheckEnvironmentVariables(env: Env, isValidUrl: string -> bool, envLocalExists: bool, example: FileState)
    returns (result: CheckResult)
    ensures result == EnvCheck(env, isValidUrl, envLocalExists, example)
  {
    var isProduction := IsProductionEnv(env);
    var errors, warnings := CheckRequired(env);
    var recommended := CheckRecommended(env);
    warnings := warnings + recommended;
    ghost var checked := errors;
    if IsSet(env, "NEXT_PUBLIC_SUPABASE_URL") && !isValidUrl(Get(env, "NEXT_PUBLIC_SUPABASE_URL")) {
      errors := errors + [InvalidUrl("NEXT_PUBLIC_SUPABASE_URL")];
    }
    assert errors == checked + UrlFinding(env, isValidUrl, "NEXT_PUBLIC_SUPABASE_URL");
    checked := errors;
    if IsSet(env, "NEXT_PUBLIC_APP_URL") && !isValidUrl(Get(env, "NEXT_PUBLIC_APP_URL")) {
      errors := errors + [InvalidUrl("NEXT_PUBLIC_APP_URL")];
    }
    assert errors == checked + UrlFinding(env, isValidUrl, "NEXT_PUBLIC_APP_URL");
    checked := errors;
    if isProduction && IsSet(env, "NEXT_PUBLIC_APP_URL") && !("https://" <= Get(env, "NEXT_PUBLIC_APP_URL")) {
      errors := errors + [HttpsRequired];
    }
    assert errors == checked + HttpsFinding(env);
    var exposures := ScanKeys(Keys(env), SensitivePatterns);
    errors := errors + exposures;
    var fileWarnings := CheckEnvFiles(envLocalExists, example);
    warnings := warnings + fileWarnings;
    result := CheckResult(errors, warnings);
  }

  /** Each part of the check reports only its own kind of finding. */
  lemma PartKinds(env: Env)
    ensures forall f :: f in RequiredErrors(env) ==> f.MissingRequired?
    ensures forall f :: f in RequiredWarnings(env) ==> f.MissingForProduction?
    ensures forall f :: f in RecommendedWarnings(env) ==> f.MissingRecommended?
  {
    MissingSpec(RequiredProdVars, SetIn(env), AsMissingRequired);
    MissingSpec(RequiredProdVars, SetIn(env), AsMissingForProduction);
    MissingSpec(RecommendedVars, SetIn(env), AsMissingRecommended);
  }

  /** The warnings are only of the kinds the warning checks produce. */
  lemma WarningKinds(env: Env, envLocalExists: bool, example: FileState)
    ensures forall f :: f in EnvWarnings(env, envLocalExists, example) ==>
      f.MissingForProduction? || f.MissingRecommended? || f.EnvLocalMissing? || f.EnvExampleMissing?
      || f.EnvExampleUnreadable? || f.MissingFromExample?
  {
    var a := RequiredWarnings(env);
    var b := RecommendedWarnings(env);
    var c := EnvFileWarnings(envLocalExists, example);
    assert EnvWarnings(env, envLocalExists, example) == a + b + c;
    PartKinds(env);
    FileWarningKinds(envLocalExists, example);
  }

  /** A name's finding is reported exactly when the name is absent. */
  lemma MissingIff(names: seq<string>, present: string -> bool, mk: string -> Finding, name: string)
    requires name in names
    requires forall n :: mk(n) == mk(name) ==> n == name
    ensures mk(name) in Missing(names, present, mk) <==> !present(name)
  {
    MissingSpec(names, present, mk);
  }

  /** An error other than an exposure comes from the checks before the scan. */
  lemma ErrorsBeforeScan(env: Env, isValidUrl: string -> bool, f: Finding)
    requires !f.SensitiveExposure?
    ensures f in EnvErrors(env, isValidUrl) <==>
      f in RequiredErrors(env) || f in UrlFinding(env, isValidUrl, "NEXT_PUBLIC_SUPABASE_URL")
      || f in UrlFinding(env, isValidUrl, "NEXT_PUBLIC_APP_URL") || f in HttpsFinding(env)
  {
    var scan := ExposureFindings(Keys(env), SensitivePatterns);
    assert f !in scan by {
      ExposureKinds(Keys(env), SensitivePatterns);
    }
    assert EnvErrors(env, isValidUrl) == RequiredErrors(env)
      + UrlFinding(env, isValidUrl, "NEXT_PUBLIC_SUPABASE_URL")
      + UrlFinding(env, isValidUrl, "NEXT_PUBLIC_APP_URL")
      + HttpsFinding(env) + scan;
  }

  /** The warnings split into the required, recommended and file parts,
      each of its own kinds. */
  lemma WarningParts(env: Env, envLocalExists: bool, example: FileState, f: Finding)
    ensures f.MissingForProduction? ==>
      (f in EnvWarnings(env, envLocalExists, example) <==> f in RequiredWarnings(env))
    ensures f.MissingRecommended? ==>
      (f in EnvWarnings(env, envLocalExists, example) <==> f in RecommendedWarnings(env))
  {
    var a := RequiredWarnings(env);
    var b := RecommendedWarnings(env);
    var c := EnvFileWarnings(envLocalExists, example);
    assert EnvWarnings(env, envLocalExists, example) == a + b + c;
    assert f.MissingForProduction? || f.MissingRecommended? ==> f !in c by {
      FileWarningKinds(envLocalExists, example);
    }
    assert f.MissingForProduction? ==> f !in b by {
      PartKinds(env);
    }
    assert f.MissingRecommended? ==> f !in a by {
      PartKinds(env);
    }
  }

  /** A required variable that is missing or empty is an error in
      production and a warning otherwise; a set one is reported neither way. */
  lemma RequiredRule(env: Env, isValidUrl: string -> bool, envLocalExists: bool, example: FileState, name: string)
    requires name in RequiredProdVars
    ensures MissingRequired(name) in EnvCheck(env, isValidUrl, envLocalExists, example).errors
      <==> IsProductionEnv(env) && !IsSet(env, name)
    ensures MissingForProduction(name) in EnvCheck(env, isValidUrl, envLocalExists, example).warnings
      <==> !IsProductionEnv(env) && !IsSet(env, name)
  {
    ErrorsBeforeScan(env, isValidUrl, MissingRequired(name));
    WarningParts(env, envLocalExists, example, MissingForProduction(name));
    MissingIff(RequiredProdVars, SetIn(env), AsMissingRequired, name);
    MissingIff(RequiredProdVars, SetIn(env), AsMissingForProduction, name);
  }

  /** The recommended variables are looked at only in production, and only
      ever give warnings. */
  lemma RecommendedRule(env: Env, isValidUrl: string -> bool, envLocalExists: bool, example: FileState, name: string)
    requires name in RecommendedVars
    ensures MissingRecommended(name) in EnvCheck(env, isValidUrl, envLocalExists, example).warnings
      <==> IsProductionEnv(env) && !IsSet(env, name)
    ensures MissingRecommended(name) !in EnvCheck(env, isValidUrl, envLocalExists, example).errors
  {
    ErrorsBeforeScan(env, isValidUrl, MissingRecommended(name));
    assert MissingRecommended(name) !in RequiredErrors(env) by {
      PartKinds(env);
    }
    WarningParts(env, envLocalExists, example, MissingRecommended(name));
    MissingIff(RecommendedVars, SetIn(env), AsMissingRecommended, name);
  }

  /** A URL variable that is set is an error exactly when it does not parse;
      no other variable is ever checked as a URL. */
  lemma UrlRule(env: Env, isValidUrl: string -> bool, envLocalExists: bool, example: FileState, name: string)
    ensures InvalidUrl(name) in EnvCheck(env, isValidUrl, envLocalExists, example).errors <==>
      (name == "NEXT_PUBLIC_SUPABASE_URL" || name == "NEXT_PUBLIC_APP_URL")
      && IsSet(env, name) && !isValidUrl(Get(env, name))
  {
    ErrorsBeforeScan(env, isValidUrl, InvalidUrl(name));
    assert InvalidUrl(name) !in RequiredErrors(env) by {
      PartKinds(env);
    }
  }

  /** The checks before the scan report no `SensitiveExposure`. */
  lemma HeadHasNoExposure(env: Env, isValidUrl: string -> bool, key: string)
    ensures SensitiveExposure(key) !in RequiredErrors(env)
      + UrlFinding(env, isValidUrl, "NEXT_PUBLIC_SUPABASE_URL")
      + UrlFinding(env, isValidUrl, "NEXT_PUBLIC_APP_URL")
      + HttpsFinding(env)
  {
    PartKinds(env);
  }

  /** Only the scan of the names contributes `SensitiveExposure` errors. */
  lemma ExposureErrors(env: Env, isValidUrl: string -> bool, key: string)
    ensures multiset(EnvErrors(env, isValidUrl))[SensitiveExposure(key)]
      == multiset(ExposureFindings(Keys(env), SensitivePatterns))[SensitiveExposure(key)]
  {
    var x := SensitiveExposure(key);
    var head := RequiredErrors(env)
      + UrlFinding(env, isValidUrl, "NEXT_PUBLIC_SUPABASE_URL")
      + UrlFinding(env, isValidUrl, "NEXT_PUBLIC_APP_URL")
      + HttpsFinding(env);
    var scan := ExposureFindings(Keys(env), SensitivePatterns);
    HeadHasNoExposure(env, isValidUrl, key);
    assert EnvErrors(env, isValidUrl) == head + scan;
    MultisetCountConcat(head, scan, x);
    AbsentCountsZero(head, x);
  }

  /** Over the whole check, every public variable is reported once for
      each sensitive pattern its name matches, and only public variables are. */
  lemma ExposureRule(env: Env, isValidUrl: string -> bool, envLocalExists: bool, example: FileState, key: string)
    ensures multiset(EnvCheck(env, isValidUrl, envLocalExists, example).errors)[SensitiveExposure(key)]
      == multiset(Keys(env))[key] * Hits(key, SensitivePatterns)
    ensures SensitiveExposure(key) !in EnvCheck(env, isValidUrl, envLocalExists, example).warnings
  {
    ExposureErrors(env, isValidUrl, key);
    ExposureCount(Keys(env), SensitivePatterns, key);
    WarningKinds(env, envLocalExists, example);
  }

  /** A name that matches none of the patterns is counted for none. */
  lemma {:induction false} NoMatchNoCount(key: string, ps: seq<Pattern>)
    requires forall i :: 0 <= i < |ps| ==> !PatternMatches(ps[i], key)
    ensures MatchCount(key, ps) == 0
    decreases |ps|
  {
    if ps != [] {
      NoMatchNoCount(key, ps[..|ps| - 1]);
    }
  }

  /** A name without a `k` matches none of the patterns: each needs
      `password` (a `w`) or ends in `key`. */
  lemma NoKeyNoHits(t: string)
    requires 'k' !in t && 'K' !in t && 'w' !in t && 'W' !in t
    ensures Hits(t, SensitivePatterns) == 0
  {
    var low := Lower(t);
    LowerKeepsOut(t, 'w', 'W');
    LowerKeepsOut(t, 'k', 'K');
    MissingCharAbsent(low, "password", 'w');
    MissingCharNotFollowed(low, "secret", "key", 'k');
    MissingCharNotFollowed(low, "private", "key", 'k');
    MissingCharNotFollowed(low, "api", "key", 'k');
    var ps := SensitivePatterns;
    assert !PatternMatches(ps[0], t) && !PatternMatches(ps[1], t)
      && !PatternMatches(ps[2], t) && !PatternMatches(ps[3], t);
    assert forall i :: 0 <= i < |ps| ==> !PatternMatches(ps[i], t) by {
      forall i | 0 <= i < |ps| ensures !PatternMatches(ps[i], t) {
        assert i == 0 || i == 1 || i == 2 || i == 3;
      }
    }
    NoMatchNoCount(t, ps);
  }

  /** The public URL variables match no sensitive pattern. */
  lemma PublicUrlsNotSensitive()
    ensures Hits("NEXT_PUBLIC_SUPABASE_URL", SensitivePatterns) == 0
    ensures Hits("NEXT_PUBLIC_APP_URL", SensitivePatterns) == 0
  {
    UrlNamesLack('k');
    UrlNamesLack('K');
    UrlNamesLack('w');
    UrlNamesLack('W');
    NoKeyNoHits("NEXT_PUBLIC_SUPABASE_URL");
    NoKeyNoHits("NEXT_PUBLIC_APP_URL");
  }

  lemma UrlNamesLack(c: char)
    requires c in "kKwW"
    ensures c !in "NEXT_PUBLIC_SUPABASE_URL" && c !in "NEXT_PUBLIC_APP_URL"
  {
  }

  /** A public name with `api` before `key` on one line, and no `w` or `r`
      (so neither `password`, `secret` nor `private`), is reported exactly
      once. */
  lemma ApiKeyOnlyOnce(t: string)
    requires IsPublic(t) && FollowedOnLine(Lower(t), "api", "key")
    requires 'w' !in t && 'W' !in t && 'r' !in t && 'R' !in t
    ensures Hits(t, SensitivePatterns) == 1
  {
    var low := Lower(t);
    LowerKeepsOut(t, 'w', 'W');
    LowerKeepsOut(t, 'r', 'R');
    MissingCharAbsent(low, "password", 'w');
    MissingCharAbsent(low, "secret", 'r');
    MissingCharAbsent(low, "private", 'r');
    if FollowedOnLine(low, "secret", "key") {
      FollowedNeedsFirst(low, "secret", "key");
    }
    if FollowedOnLine(low, "private", "key") {
      FollowedNeedsFirst(low, "private", "key");
    }
    var ps := SensitivePatterns[..3];
    assert !PatternMatches(ps[0], t) && !PatternMatches(ps[1], t) && !PatternMatches(ps[2], t);
    assert forall i :: 0 <= i < |ps| ==> !PatternMatches(ps[i], t) by {
      forall i | 0 <= i < |ps| ensures !PatternMatches(ps[i], t) {
        assert i == 0 || i == 1 || i == 2;
      }
    }
    NoMatchNoCount(t, ps);
    assert SensitivePatterns[..|SensitivePatterns| - 1] == ps;
  }

  /** The file checks only ever add their own kinds of warning. */
  lemma FileWarningKinds(envLocalExists: bool, example: FileState)
    ensures forall f :: f in EnvFileWarnings(envLocalExists, example) ==>
      f.EnvLocalMissing? || f.EnvExampleMissing? || f.EnvExampleUnreadable? || f.MissingFromExample?
  {
    if example.Present? {
      var keys := ExampleKeys(example.content);
      MissingSpec(RequiredProdVars, ListedIn(keys), AsMissingFromExample);
    }
  }

  /** In production an app URL that is set but not `https://` is an error,
      and that is the only way to get this error. */
  lemma HttpsRule(env: Env, isValidUrl: string -> bool, envLocalExists: bool, example: FileState)
    ensures HttpsRequired in EnvCheck(env, isValidUrl, envLocalExists, example).errors <==>
      IsProductionEnv(env) && IsSet(env, "NEXT_PUBLIC_APP_URL") && !("https://" <= Get(env, "NEXT_PUBLIC_APP_URL"))
  {
    ErrorsBeforeScan(env, isValidUrl, HttpsRequired);
    assert HttpsRequired !in RequiredErrors(env) by {
      PartKinds(env);
    }
  }

  /** `.env.example` is compared against the required variables only when
      it can be read: one warning per required name it does not list. */
  lemma ExampleRule(envLocalExists: bool, content: string, name: string)
    ensures MissingFromExample(name) in EnvFileWarnings(envLocalExists, Present(content)) <==>
      name in RequiredProdVars && name !in ExampleKeys(content)
    ensures |EnvFileWarnings(envLocalExists, Present(content))| <= 5
    ensures EnvFileWarnings(envLocalExists, Absent) == (if envLocalExists then [] else [EnvLocalMissing]) + [EnvExampleMissing]
  {
    var keys := ExampleKeys(content);
    MissingSpec(RequiredProdVars, ListedIn(keys), AsMissingFromExample);
  }

  // ---------------------------------------------------------------------
  // checkSecurityConfiguration and the run
  // ---------------------------------------------------------------------

  /** `checkSecurityConfiguration`; `None` when reading `next.config.ts`
      throws, which ends the run through the top-level handler. */
  function SecurityCheck(middlewareExists: bool, nextConfig: FileState): Option<CheckResult>
  {
    var errors := if middlewareExists then [] else [MiddlewareMissing];
    match nextConfig
    case Absent => Some(CheckResult(errors, []))
    case Unreadable => None
    case Present(content) =>
      Some(CheckResult(errors,
        (if Contains(content, "Content-Security-Policy") then [] else [CspMissing])
        + (if Contains(content, "X-Frame-Options") then [] else [FrameOptionsMissing])))
  }

  /** The exit code of the script: the environment check first, the
      security check only when it passed, any exception ending in 1. */
  function PrebuildExitCode(env: Env, isValidUrl: string -> bool, envLocalExists: bool, example: FileState,
                            middlewareExists: bool, nextConfig: FileState): int
  {
    var envResult := EnvCheck(env, isValidUrl, envLocalExists, example);
    if ExitCode(envResult) != 0 then ExitCode(envResult)
    else
      match SecurityCheck(middlewareExists, nextConfig)
      case None => 1
      case Some(r) => ExitCode(r)
  }

  /** The script's top level. */
  method RunChecks(env: Env, isValidUrl: string -> bool, envLocalExists: bool, example: FileState,
                   middlewareExists: bool, nextConfig: FileState) returns (exitCode: int)
    ensures exitCode == PrebuildExitCode(env, isValidUrl, envLocalExists, example, middlewareExists, nextConfig)
  {
    var envResult := CheckEnvironmentVariables(env, isValidUrl, envLocalExists, example);
    if envResult.errors != [] {
      return 1;
    }
    var security := SecurityCheck(middlewareExists, nextConfig);
    if security.None? {
      return 1;
    }
    exitCode := if security.value.errors != [] then 1 else 0;
  }

  /** The build passes exactly when neither check reports an error and the
      config could be read; warnings never fail it, and a missing
      middleware file always does. */
  lemma ExitRule(env: Env, isValidUrl: string -> bool, envLocalExists: bool, example: FileState,
                 middlewareExists: bool, nextConfig: FileState)
    ensures var code := PrebuildExitCode(env, isValidUrl, envLocalExists, example, middlewareExists, nextConfig);
      && (code == 0 || code == 1)
      && (code == 0 <==>
            EnvCheck(env, isValidUrl, envLocalExists, example).errors == []
            && middlewareExists && !nextConfig.Unreadable?)
    ensures !middlewareExists ==>
      PrebuildExitCode(env, isValidUrl, envLocalExists, example, middlewareExists, nextConfig) == 1
  {
  }

  /** A security finding is an error only for a missing middleware file;
      the header checks only warn. */
  lemma SecurityRule(middlewareExists: bool, content: string)
    ensures var r := SecurityCheck(middlewareExists, Present(content)).value;
      && (r.errors == [] <==> middlewareExists)
      && (CspMissing in r.warnings <==> !Contains(content, "Content-Security-Policy"))
      && (FrameOptionsMissing in r.warnings <==> !Contains(content, "X-Frame-Options"))
  {
  }
}
