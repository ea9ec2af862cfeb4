/**
 * The application's error classes and the mapping from a thrown value to
 * an HTTP error response: status, code, message, details and headers,
 * and whether it is logged as a security event; plus the client-side
 * sanitiser and the operational-error test.
 */
module ErrorHandler {
  import opened Wrappers
  import opened Text
  import opened Validation

  // ---------------------------------------------------------------------
  // The error classes
  // ---------------------------------------------------------------------

  /** Which constructor built an application error (`new.target`), with
      the fields that constructor adds. */
  datatype AppErrorKind =
    | PlainAppError
    | ValidationErrorKind(details: Option<map<string, seq<string>>>)
    | RateLimitErrorKind(retryAfter: Option<int>)
    | SecurityErrorKind

  /** The classes of the hierarchy; an object's prototype is one of theirs. */
  datatype ErrorClass = AppErrorClass | ValidationErrorClass | RateLimitErrorClass | SecurityErrorClass

  /** A thrown value as `createErrorResponse` tells it apart. An application
      error records the class whose prototype it ended up with: `instanceof`
      a subclass reads that, not the constructor that built the object. */
  datatype Thrown =
    | AppError(kind: AppErrorKind, proto: ErrorClass, message: string, statusCode: int, code: Option<string>,
               isOperational: bool)
    | ZodError(issues: seq<Issue>, message: string)
    | PlainError(message: string)
    | NonError

  /** `new AppError(message, statusCode?, code?, isOperational?)`. */
  function NewAppError(message: string, statusCode: Option<int>, code: Option<string>,
                       isOperational: Option<bool>): (e: Thrown)
    ensures e.AppError? && e.kind == PlainAppError && e.proto == AppErrorClass && e.message == message
    ensures e.code == code && e.statusCode == statusCode.GetOr(500) && e.isOperational == isOperational.GetOr(true)
  {
    AppError(PlainAppError, AppErrorClass, message, statusCode.GetOr(500), code, isOperational.GetOr(true))
  }

  // The subclass constructors call `super`, and the `AppError` constructor
  // then resets the prototype to `AppError.prototype`. So every object they
  // build has the prototype of `AppError`, not of its own class.

  /** `new ValidationError(message, details?)`. */
  function NewValidationError(message: string, details: Option<map<string, seq<string>>>): Thrown
  {
    AppError(ValidationErrorKind(details), AppErrorClass, message, 400, Some("VALIDATION_ERROR"), true)
  }

  /** `new RateLimitError(message?, retryAfter?)`. */
  function NewRateLimitError(message: Option<string>, retryAfter: Option<int>): Thrown
  {
    AppError(RateLimitErrorKind(retryAfter), AppErrorClass, message.GetOr("Rate limit exceeded"), 429,
             Some("RATE_LIMIT_ERROR"), true)
  }

  /** `new SecurityError(message?)`. */
  function NewSecurityError(message: Option<string>): Thrown
  {
    AppError(SecurityErrorKind, AppErrorClass, message.GetOr("Security violation detected"), 403,
             Some("SECURITY_ERROR"), true)
  }

  /** The class whose constructor was called. */
  function ClassOf(kind: AppErrorKind): ErrorClass
  {
    match kind
    case PlainAppError => AppErrorClass
    case ValidationErrorKind(_) => ValidationErrorClass
    case RateLimitErrorKind(_) => RateLimitErrorClass
    case SecurityErrorKind => SecurityErrorClass
  }

  /** The corrected constructor, `Object.setPrototypeOf(this, new.target.prototype)`:
      the object keeps the prototype of the class that built it. */
  function WithOwnPrototype(e: Thrown): (r: Thrown)
    requires e.AppError?
    ensures r.AppError? && r.proto == ClassOf(e.kind)
    ensures r.(proto := e.proto) == e
  {
    e.(proto := ClassOf(e.kind))
  }

  /** The subclasses fix status and code; every one is operational. */
  lemma ErrorClassDefaults(message: string, m: Option<string>, details: Option<map<string, seq<string>>>, retry: Option<int>)
    ensures NewValidationError(message, details).statusCode == 400
      && NewValidationError(message, details).code == Some("VALIDATION_ERROR")
    ensures NewRateLimitError(m, retry).statusCode == 429
      && NewRateLimitError(m, retry).code == Some("RATE_LIMIT_ERROR")
      && NewRateLimitError(None, retry).message == "Rate limit exceeded"
    ensures NewSecurityError(m).statusCode == 403
      && NewSecurityError(m).code == Some("SECURITY_ERROR")
      && NewSecurityError(None).message == "Security violation detected"
    ensures NewValidationError(message, details).isOperational
      && NewRateLimitError(m, retry).isOperational && NewSecurityError(m).isOperational
  {
  }

  // ---------------------------------------------------------------------
  // createErrorResponse
  // ---------------------------------------------------------------------

  /** The JSON body; `error: true` is constant and not stored. */
  datatype ErrorBody = ErrorBody(code: string, message: string, errorId: Option<string>,
                                 details: Option<map<string, seq<string>>>)

  /** The response, and which of the two security-log events it raised:
      `unexpected_error` for an error that is not an application or schema
      error, `security_error` for status 403 or 429. */
  datatype ErrorResponse = ErrorResponse(status: int, body: ErrorBody, headers: seq<(string, string)>,
                                         unexpectedLogged: bool, securityLogged: bool)

  const BaseErrorHeaders: seq<(string, string)> :=
    [("Content-Type", "application/json"), ("X-Content-Type-Options", "nosniff"), ("X-Frame-Options", "DENY")]

  /** `error.code || 'APP_ERROR'`. */
  function CodeOrDefault(code: Option<string>): string
  {
    if code.Some? && code.value != [] then code.value else "APP_ERROR"
  }

  /** The status, message, code and details the source settles on. */
  datatype Outcome = Outcome(status: int, message: string, code: string, details: Option<map<string, seq<string>>>)

  /** `error.details`: undefined unless a `ValidationError` constructor set it. */
  function DetailsField(kind: AppErrorKind): Option<map<string, seq<string>>>
  {
    if kind.ValidationErrorKind? then kind.details else None
  }

  /** `error.retryAfter`: undefined unless a `RateLimitError` constructor set it. */
  function RetryAfterField(kind: AppErrorKind): Option<int>
  {
    if kind.RateLimitErrorKind? then kind.retryAfter else None
  }

  function OutcomeFor(error: Thrown, isProduction: bool): Outcome
  {
    match error
    case AppError(kind, proto, message, statusCode, code, _) =>
      Outcome(statusCode, message, CodeOrDefault(code),
              if proto == ValidationErrorClass then DetailsField(kind) else None)
    case ZodError(issues, _) =>
      Outcome(400, "Validation failed", "VALIDATION_ERROR", Some(Grouped(issues)))
    case PlainError(message) =>
      Outcome(500, if isProduction then "Internal server error" else message, "INTERNAL_ERROR", None)
    case NonError =>
      Outcome(500, "Internal server error", "INTERNAL_ERROR", None)
  }

  /** `error instanceof RateLimitError && error.retryAfter`: the prototype is
      that of `RateLimitError` and the delay is present and non-zero. */
  predicate HasRetryAfter(error: Thrown)
  {
    error.AppError? && error.proto == RateLimitErrorClass && RetryAfterField(error.kind).Some?
    && RetryAfterField(error.kind).value != 0
  }

  /** `createErrorResponse`, with the random `errorId` passed in. */
  function ErrorResponseFor(error: Thrown, isProduction: bool, errorId: string): ErrorResponse
  {
    var o := OutcomeFor(error, isProduction);
    ErrorResponse(
      o.status,
      ErrorBody(o.code, o.message, if isProduction then Some(errorId) else None, o.details),
      BaseErrorHeaders + (if HasRetryAfter(error) then [("Retry-After", IntToString(RetryAfterField(error.kind).value))] else []),
      error.PlainError?,
      o.status == 403 || o.status == 429)
  }

  /** `createErrorResponse` as the source writes it: locals reassigned step
      by step, the headers dictionary extended in place. */
  method CreateErrorResponse(error: Thrown, isProduction: bool, errorId: string) returns (response: ErrorResponse)
    ensures response == ErrorResponseFor(error, isProduction, errorId)
  {
    var statusCode := 500;
    var message := "Internal server error";
    var code := "INTERNAL_ERROR";
    var details: Option<map<string, seq<string>>> := None;
    var unexpectedLogged := false;
    match error {
      case AppError(kind, proto, m, s, c, _) =>
        statusCode := s;
        message := m;
        code := CodeOrDefault(c);
        if proto == ValidationErrorClass {
          details := DetailsField(kind);
        }
      case ZodError(issues, _) =>
        statusCode := 400;
        message := "Validation failed";
        code := "VALIDATION_ERROR";
        var grouped := GroupByPath(issues);
        details := Some(grouped);
      case PlainError(m) =>
        unexpectedLogged := true;
        if !isProduction {
          message := m;
        }
      case NonError =>
    }
    var securityLogged := statusCode == 403 || statusCode == 429;
    var body := ErrorBody(code, message, if isProduction then Some(errorId) else None, None);
    if details.Some? {
      body := body.(details := details);
    }
    var headers := BaseErrorHeaders;
    if HasRetryAfter(error) {
      headers := headers + [("Retry-After", IntToString(RetryAfterField(error.kind).value))];
    }
    response := ErrorResponse(statusCode, body, headers, unexpectedLogged, securityLogged);
  }

  /** An application error keeps its status and message, its code defaulting
      to `APP_ERROR`; a value that is not an error gives 500 and the generic
      texts. */
  lemma AppErrorAndNonErrorRules(error: Thrown, isProduction: bool, errorId: string)
    ensures error.AppError? ==>
      var r := ErrorResponseFor(error, isProduction, errorId);
      r.status == error.statusCode && r.body.message == error.message
      && r.body.code == (if error.code.Some? && error.code.value != [] then error.code.value else "APP_ERROR")
    ensures error.NonError? ==>
      var r := ErrorResponseFor(error, isProduction, errorId);
      r.status == 500 && r.body.message == "Internal server error" && r.body.code == "INTERNAL_ERROR"
      && r.body.details.None?
  {
  }

  /** A schema error gives 400 with every issue's message filed under its
      dotted path, each listed path holding at least one. */
  lemma SchemaErrorRule(issues: seq<Issue>, zodMessage: string, isProduction: bool, errorId: string)
    ensures var r := ErrorResponseFor(ZodError(issues, zodMessage), isProduction, errorId);
      && r.status == 400 && r.body.code == "VALIDATION_ERROR" && r.body.message == "Validation failed"
      && r.body.details == Some(Grouped(issues))
      && r.body.details.value.Keys == PathKeys(issues)
      && forall k :: k in r.body.details.value ==> r.body.details.value[k] != []
  {
    GroupedShape(issues);
  }

  /** An unexpected error is logged and answered with 500; its message is
      exposed only outside production. */
  lemma PlainErrorRule(message: string, isProduction: bool, errorId: string)
    ensures var r := ErrorResponseFor(PlainError(message), isProduction, errorId);
      && r.status == 500 && r.body.code == "INTERNAL_ERROR" && r.unexpectedLogged
      && (isProduction ==> r.body.message == "Internal server error")
      && (!isProduction ==> r.body.message == message)
  {
  }

  /** In production no message reaches the response body unless an
      application error chose it: everything else gets a fixed text. */
  lemma ProductionHidesInternals(error: Thrown, errorId: string)
    ensures var r := ErrorResponseFor(error, true, errorId);
      !error.AppError? ==> r.body.message == "Internal server error" || r.body.message == "Validation failed"
  {
  }

  /** The body and header rules: an error id only in production; a
      `Retry-After` header exactly for an instance of `RateLimitError` with a
      non-zero delay; `nosniff` and `DENY` always; the security log exactly
      for 403 and 429. */
  lemma ResponseShape(error: Thrown, isProduction: bool, errorId: string)
    ensures var r := ErrorResponseFor(error, isProduction, errorId);
      && (r.body.errorId.Some? <==> isProduction)
      && BaseErrorHeaders <= r.headers
      && (|r.headers| > |BaseErrorHeaders| <==> HasRetryAfter(error))
      && (r.securityLogged <==> r.status == 403 || r.status == 429)
    ensures HasRetryAfter(error) ==>
      ErrorResponseFor(error, isProduction, errorId).headers[3] == ("Retry-After", IntToString(RetryAfterField(error.kind).value))
  {
  }

  /** As written, the subclasses lose their class: no `ValidationError` sends
      its details and no `RateLimitError` sends a `Retry-After` header, and
      `new ValidationError('bad', {email: ['x']})` is answered without details. */
  lemma SubclassesLoseTheirClass(message: string, details: Option<map<string, seq<string>>>,
                                 m: Option<string>, retry: Option<int>, isProduction: bool, errorId: string)
    ensures NewValidationError(message, details).proto == AppErrorClass
      && NewRateLimitError(m, retry).proto == AppErrorClass && NewSecurityError(m).proto == AppErrorClass
    ensures ErrorResponseFor(NewValidationError(message, details), isProduction, errorId).body.details == None
    ensures ErrorResponseFor(NewRateLimitError(m, retry), isProduction, errorId).headers == BaseErrorHeaders
    ensures var r := ErrorResponseFor(NewValidationError("bad", Some(map["email" := ["x"]])), isProduction, errorId);
      r.status == 400 && r.body.code == "VALIDATION_ERROR" && r.body.details == None
  {
  }

  /** With the prototype fixed to the constructing class, a validation error
      sends the details it was given, and a rate-limit error sends
      `Retry-After` exactly when its delay is present and non-zero. */
  lemma CorrectedSubclassesKeepTheirClass(message: string, details: Option<map<string, seq<string>>>,
                                          m: Option<string>, retry: Option<int>, isProduction: bool,
                                          errorId: string)
    ensures ErrorResponseFor(WithOwnPrototype(NewValidationError(message, details)), isProduction, errorId).body.details
            == details
    ensures var r := ErrorResponseFor(WithOwnPrototype(NewRateLimitError(m, retry)), isProduction, errorId);
      && r.status == 429
      && (retry.Some? && retry.value != 0 ==> r.headers == BaseErrorHeaders + [("Retry-After", IntToString(retry.value))])
      && (retry.None? || retry.value == 0 ==> r.headers == BaseErrorHeaders)
    ensures ErrorResponseFor(WithOwnPrototype(NewSecurityError(m)), isProduction, errorId)
            == ErrorResponseFor(NewSecurityError(m), isProduction, errorId)
  {
  }

  /** Rate-limit and security errors are always logged. */
  lemma SecurityErrorsLogged(m: Option<string>, retry: Option<int>, isProduction: bool, errorId: string)
    ensures ErrorResponseFor(NewRateLimitError(m, retry), isProduction, errorId).securityLogged
    ensures ErrorResponseFor(NewSecurityError(m), isProduction, errorId).securityLogged
    ensures !ErrorResponseFor(NewValidationError("invalid", None), isProduction, errorId).securityLogged
  {
  }

  // ---------------------------------------------------------------------
  // sanitizeErrorForClient / isOperationalError
  // ---------------------------------------------------------------------

  /** What is safe to log on the client; the timestamp is left out. */
  datatype ClientError = ClientError(message: string, code: Option<string>)

  const UnexpectedMessage: string := "An unexpected error occurred"

  function SanitizeErrorForClient(error: Thrown, isProduction: bool): ClientError
  {
    match error
    case AppError(_, _, message, _, code, _) => ClientError(message, code)
    case NonError => ClientError(UnexpectedMessage, None)
    case _ => if isProduction then ClientError(UnexpectedMessage, None) else ClientError(error.message, None)
  }

  /** An application error's message and code always reach the client;
      another error's message (a schema error included) only outside
      production; a value that is not an error never. In production every
      message is the application's own or the generic text. */
  lemma SanitizeRules(error: Thrown, isProduction: bool)
    ensures error.AppError? ==> SanitizeErrorForClient(error, isProduction) == ClientError(error.message, error.code)
    ensures !error.NonError? && !isProduction ==> SanitizeErrorForClient(error, isProduction).message == error.message
    ensures !error.AppError? ==> SanitizeErrorForClient(error, isProduction).code.None?
    ensures isProduction && !error.AppError? ==> SanitizeErrorForClient(error, isProduction).message == UnexpectedMessage
  {
  }

  predicate IsOperationalError(error: Thrown)
  {
    error.AppError? && error.isOperational
  }

  /** Every subclass instance is operational, whatever its message; an
      application error built with `isOperational` false is not, and nothing
      that is not an application error is. */
  lemma OperationalRule(error: Thrown, message: string, m: Option<string>,
                        details: Option<map<string, seq<string>>>, retry: Option<int>)
    ensures IsOperationalError(NewValidationError(message, details))
      && IsOperationalError(NewRateLimitError(m, retry)) && IsOperationalError(NewSecurityError(m))
    ensures !IsOperationalError(NewAppError(message, None, None, Some(false)))
    ensures !error.AppError? ==> !IsOperationalError(error)
  {
  }
}
