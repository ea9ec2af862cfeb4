# Agency site core, modelled in Dafny

This project models the logic at the core of a marketing-agency web site built
with Next.js. The core has four parts:

- **Adaptive performance.** `PerformanceOptimizer` picks a quality tier (low,
  medium or high) from what the browser reports. The React provider samples the
  frame rate once a second and keeps a bounded history. It demotes the tier when
  the average drops below 30 FPS or the heap is nearly full. Hiding the page
  cancels the measuring frame; showing it again only resets the reference
  time. A developer overlay and a small hook measure the frame rate the same
  way.
- **Security.** The sanitisers are character-level string transforms. The rate
  limiter is a fixed-window limiter over a map updated in place. The request
  middleware orders its checks: https redirect, then rate limit, then
  suspicious-pattern block, then pass.
- **Validation and error handling.** The contact-form schema has per-field
  rules, and `validateInput` groups issues by path. The error handler maps each
  kind of thrown error to a status, a code, a message, details and headers.
- **Pre-build check.** `scripts/check-env.js` turns the environment, the
  `.env` files and the security configuration into errors, warnings and an exit
  code.

There is one module per source file:

- `PerformanceUtils`, `PerformanceContext`, `PerformanceMonitor`;
- `Security`, `Middleware`;
- `Validation`, `ErrorHandler`;
- `CheckEnv`.

Four shared modules sit beside them:

- `Wrappers`: `Option` and `Result`.
- `Text`: the JavaScript string built-ins the code uses.
- `Numeric`: `Math.round` and `Math.ceil` of a quotient.
- `FpsHistory`: the bounded frame-rate history.

State the source changes in place becomes a class:

- the optimizer and its singleton slot;
- the provider;
- the overlay and the hook;
- the rate limiter.

Each method of such a class ensures that its new state is a pure step function
of the old state. The lemmas about those step functions carry the properties.

Time is an integer number of milliseconds, passed in as a parameter. Browser
probes, the URL parser, the e-mail test and the file system are parameters as
well.

## Model

| member | source | states |
|---|---|---|
| PerformanceUtils.AnyIndicator | src/lib/performance-utils.ts:64-73 | The user-agent test holds exactly when some listed fragment occurs in the user agent. |
| PerformanceUtils.LowEndIsDisjunction | src/lib/performance-utils.ts:54-74 | A device is low-end exactly when it has at most 2 cores (a missing or zero count reads as 4), or at most 2 GB of reported memory, or a legacy user-agent fragment. |
| PerformanceUtils.OperaMiniIsLowEnd | src/lib/performance-utils.ts:64-73 | A legacy browser's user agent marks the device low-end whatever its cores and memory. |
| PerformanceUtils.CapabilityDefaults | src/lib/performance-utils.ts:14-24 | With no signals, the memory estimate is 4096 MB and the speed is unknown. The server-side record is not low-end, has 4096 MB and an unknown speed. |
| PerformanceUtils.ConnectionSpeedRules | src/lib/performance-utils.ts:100-108 | No connection object gives unknown. slow-2g, 2g and 3g give slow. Any other type, or none, gives fast. |
| PerformanceUtils.InitialModeRules | src/lib/performance-utils.ts:120-126 | The initial tier is low exactly for reduced motion or a low-end device. It is medium exactly for a slow connection or no WebGL otherwise, and high in every other case. |
| PerformanceUtils.InitialModeMonotone | src/lib/performance-utils.ts:120-126 | A device no more capable than another never starts in a higher tier. |
| PerformanceUtils.AdaptNeverRaises | src/lib/performance-utils.ts:209-219 | `adaptQuality` never raises the tier. It returns settings exactly when it changes the tier, and then they are the new tier's animation settings. |
| PerformanceUtils.AdaptCases | src/lib/performance-utils.ts:209-219 | Below 20 FPS the tier becomes low. From 20 to below 40, high becomes medium and other tiers stay. From 40 up nothing changes and nothing is returned. |
| PerformanceUtils.AdaptIdempotent | src/lib/performance-utils.ts:209-219 | Adapting again to the same rate changes nothing and returns nothing. |
| PerformanceUtils.AdaptAtTwentyNeverReachesLow | src/lib/performance-utils.ts:209-219 | Adapting to 20 FPS turns high into medium and leaves medium and low alone. |
| PerformanceUtils.SettingsByTier | src/lib/performance-utils.ts:129-191 | Animations and 3D are on exactly above low. Reduced motion holds exactly in low. Antialiasing and shadows hold exactly in high. 3D quality names the tier. |
| PerformanceUtils.SettingsOrderedByTier | src/lib/performance-utils.ts:129-191 | A higher tier has a strictly higher frame rate and particle count, and 3D off in it means 3D off below it. |
| PerformanceUtils.SettingsDetermineTier | src/lib/performance-utils.ts:129-191 | Distinct tiers publish distinct bundles, so a bundle names its tier. |
| PerformanceUtils.LazyLoadRules | src/lib/performance-utils.ts:194-198 | Heavy components are always deferred. Light ones are deferred exactly on a slow connection. Medium ones are deferred exactly on a slow connection or a low-end device. |
| PerformanceUtils.IntersectionRules | src/lib/performance-utils.ts:201-206 | The threshold is 0.5 exactly in low mode. The root margin is 10px exactly on a slow connection. |
| PerformanceUtils.PerformanceOptimizer.constructor | src/lib/performance-utils.ts:111-118 | The optimizer reads the capabilities once and starts in the tier they determine. |
| PerformanceUtils.PerformanceOptimizer.AdaptQuality | src/lib/performance-utils.ts:209-219 | The method's new tier and its result are those of the pure rule. The tier never rises, and settings are returned exactly on a change. |
| PerformanceUtils.OptimizerSingleton.constructor | src/lib/performance-utils.ts:222 | Before the first call there is no instance. |
| PerformanceUtils.OptimizerSingleton.GetPerformanceOptimizer | src/lib/performance-utils.ts:223-230 | The first call creates the optimizer and stores it. Later calls return the stored one. |
| PerformanceUtils.SingletonClient | src/lib/performance-utils.ts:223-230 | Two calls, even with different hosts, return the same object. |
| FpsHistory.FpsSample | src/contexts/PerformanceContext.tsx:37 | The sample is the frames-per-second figure rounded to the nearest integer, halves up. |
| FpsHistory.LastN | src/contexts/PerformanceContext.tsx:41-44 | The window holds the newest n values, or all of them when there are fewer. |
| FpsHistory.PushKeepsNewest | src/contexts/PerformanceContext.tsx:41-44 | A push keeps the history within its cap, ends it with the new sample, and equals the newest cap values. |
| FpsHistory.HistoryIsNewestSamples | src/contexts/PerformanceContext.tsx:41-44 | From empty, the history is always the newest cap samples taken, oldest first (first in, first out). |
| FpsHistory.AverageBelowIsMeanBelow | src/contexts/PerformanceContext.tsx:47-49 | The cross-multiplied test agrees with comparing the real average to the bound. |
| FpsHistory.SamplesAtLeastBound | src/contexts/PerformanceContext.tsx:47-49 | Samples all at least the bound sum to at least bound times their number. |
| Numeric.RoundDiv | src/contexts/PerformanceContext.tsx:37 | The result is within half a divisor of the quotient, and not negative for a non-negative dividend. |
| Numeric.RoundDivUnique | src/contexts/PerformanceContext.tsx:37 | The nearness property determines the rounded quotient. |
| Numeric.CeilDiv | src/middleware.ts:69 | The result is the least integer not below the quotient. |
| PerformanceContext.Mount | src/contexts/PerformanceContext.tsx:19-28 | The mounted state is valid: the history is within 10 samples, the published settings are the tier's, and one measuring frame is requested. |
| PerformanceContext.ApplyAdaptKeepsInvariant | src/contexts/PerformanceContext.tsx:51-60 | Adapting keeps the published settings those of the tier and never raises the tier. |
| PerformanceContext.SampleStepKeepsInvariant | src/contexts/PerformanceContext.tsx:35-60 | A sample keeps the invariant and never raises the tier. |
| PerformanceContext.MeasureStepKeepsInvariant | src/contexts/PerformanceContext.tsx:32-67 | One `measureFPS` run keeps the invariant and never raises the tier. |
| PerformanceContext.CountFrameKeepsInvariant | src/contexts/PerformanceContext.tsx:33-64 | Counting a frame, and sampling once a second has passed, keeps the invariant and never raises the tier. |
| PerformanceContext.RunBatchKeepsInvariant | src/contexts/PerformanceContext.tsx:32-67 | Running any batch of waiting callbacks keeps the invariant and never raises the tier. |
| PerformanceContext.StepKeepsInvariant | src/contexts/PerformanceContext.tsx:30-119 | Every host event keeps the invariant and never raises the tier. |
| PerformanceContext.TierNeverRises | src/contexts/PerformanceContext.tsx:30-119 | Over any sequence of events the history stays within its cap and the tier never rises. |
| PerformanceContext.PublishedSettingsNeverRise | src/contexts/PerformanceContext.tsx:49-59 | Over any sequence of events the published frame rate and particle count never grow, and 3D is never switched back on, even when the flag returns to false. |
| PerformanceContext.MeasureStepSampling | src/contexts/PerformanceContext.tsx:32-67 | Every run counts a frame and requests the next. Before a second has passed nothing else changes. After it, the counter resets and the time becomes now. |
| PerformanceContext.AdaptOnlyOnFlip | src/contexts/PerformanceContext.tsx:47-60 | When the below-30 flag does not flip, neither the tier nor the published settings change. |
| PerformanceContext.SteadyRateKeepsTier | src/contexts/PerformanceContext.tsx:46-60 | A page whose samples all stay at 30 FPS or more is never adapted, whatever its tier. |
| PerformanceContext.MemoryPressureStopsAtMedium | src/contexts/PerformanceContext.tsx:79-98 | Heap use above 80 % sets the flag, and `adaptQuality(20)` can turn high into medium but never reach low. |
| PerformanceContext.HideShowStopsLoop | src/contexts/PerformanceContext.tsx:101-119 | Hiding cancels the measuring frame. Showing runs one reset of time and counter that does not restart measuring and keeps the history. |
| PerformanceContext.ShowResumesLoop | src/contexts/PerformanceContext.tsx:108-113 | If showing the page also requests the measuring loop, then after a hide and a show the next frame resets the reference time, counts itself and requests the next measurement, and the invariant holds. |
| PerformanceContext.FirstFrameCounts | src/contexts/PerformanceContext.tsx:30-76 | The first frame after mounting counts one frame and requests the next. |
| PerformanceContext.PerformanceProvider.constructor | src/contexts/PerformanceContext.tsx:19-28 | The provider starts in the mount state for the optimizer's tier. |
| PerformanceContext.PerformanceProvider.RequestFrame | src/contexts/PerformanceContext.tsx:66 | A callback is queued and the frame reference names it. |
| PerformanceContext.PerformanceProvider.CancelFrame | src/contexts/PerformanceContext.tsx:71-75 | Only the referenced pending callback is cancelled. |
| PerformanceContext.PerformanceProvider.AdaptTo | src/contexts/PerformanceContext.tsx:51-59 | The tier and settings become those the adapt step gives. |
| PerformanceContext.PerformanceProvider.TakeSample | src/contexts/PerformanceContext.tsx:35-64 | The state becomes that of the sampling step. |
| PerformanceContext.PerformanceProvider.MeasureFps | src/contexts/PerformanceContext.tsx:32-67 | The state becomes that of one `measureFPS` run. |
| PerformanceContext.PerformanceProvider.ResetMeasurement | src/contexts/PerformanceContext.tsx:107-110 | The time becomes now and the counter zero. |
| PerformanceContext.PerformanceProvider.AnimationFrame | src/contexts/PerformanceContext.tsx:30-76 | Every waiting callback runs in request order. |
| PerformanceContext.PerformanceProvider.VisibilityChange | src/contexts/PerformanceContext.tsx:101-119 | Hiding cancels the referenced frame. Showing queues one reset. |
| PerformanceContext.PerformanceProvider.CheckMemoryPressure | src/contexts/PerformanceContext.tsx:79-98 | The state becomes that of the memory check. |
| PerformanceContext.PerformanceProvider.Unmount | src/contexts/PerformanceContext.tsx:69-76 | The effect's cleanup cancels the referenced frame. |
| PerformanceContext.PerformanceProvider.Handle | src/contexts/PerformanceContext.tsx:30-119 | One event moves the state by the event step. A valid provider stays valid, and its tier does not rise. |
| PerformanceContext.PerformanceProvider.HandleAll | src/contexts/PerformanceContext.tsx:30-119 | A sequence of events moves the state by the run of event steps. A valid provider stays valid throughout, and its tier never rises. |
| PerformanceContext.FallbackRule | src/contexts/PerformanceContext.tsx:138-172 | The fallback is shown exactly when the type (default medium) should be lazy loaded, the page is low-performance and a fallback is given. Outside a provider the hook fails with its message. |
| PerformanceContext.AdaptiveAnimationRules | src/contexts/PerformanceContext.tsx:175-197 | With low-tier settings every animation becomes instant: duration 0, delay 0, one iteration. |
| PerformanceContext.AdaptiveAnimationScales | src/contexts/PerformanceContext.tsx:175-197 | With animations on, duration and delay are halved on a low-performance page and kept otherwise, after defaulting (a zero reads as missing). |
| PerformanceMonitor.FpsColorBands | src/components/ui/performance-monitor.tsx:77-81 | Green exactly from 55, red exactly below 30, yellow exactly in between. A higher rate never gets a worse colour. |
| PerformanceMonitor.MemoryMegabytes | src/components/ui/performance-monitor.tsx:36-38 | The heap in megabytes, rounded to nearest, or 0 when unavailable. |
| PerformanceMonitor.MonitorFrameRules | src/components/ui/performance-monitor.tsx:24-52 | A disabled overlay does nothing. A sample reports the rounded rate and the elapsed time, resets the counter and keeps visibility. Before a second only the counter moves. |
| PerformanceMonitor.ShortcutToggles | src/components/ui/performance-monitor.tsx:64-69 | Ctrl+Shift+P flips visibility and nothing else, twice restores it, and lower-case p does nothing. |
| PerformanceMonitor.HiddenUntilToggled | src/components/ui/performance-monitor.tsx:12-75 | The overlay renders nothing until toggled. After one toggle it renders exactly when enabled. |
| PerformanceMonitor.PerformanceMonitorComponent.constructor | src/components/ui/performance-monitor.tsx:12-22 | The overlay starts hidden with zero metrics. |
| PerformanceMonitor.PerformanceMonitorComponent.MeasurePerformance | src/components/ui/performance-monitor.tsx:27-52 | The state becomes that of one overlay frame. |
| PerformanceMonitor.PerformanceMonitorComponent.HandleKeyPress | src/components/ui/performance-monitor.tsx:65-69 | Only the metrics change, by the key rule. |
| PerformanceMonitor.InitialDetector | src/components/ui/performance-monitor.tsx:108-114 | The hook starts valid: empty history, flag false. |
| PerformanceMonitor.DetectorFlagTracksAverage | src/components/ui/performance-monitor.tsx:118-140 | Over any run of frames the history stays within 5 samples, and after every sample the flag equals whether the average is below 30. |
| PerformanceMonitor.DetectorRecovers | src/components/ui/performance-monitor.tsx:120-131 | Unlike the provider's one-way tier, the flag can clear: whatever the history, a second sampled at 150 FPS or more clears it, because the newest five samples then average at least 30. |
| PerformanceMonitor.SlowHistoryOutweighsFastSample | src/components/ui/performance-monitor.tsx:120-131 | A fast sample alone need not clear the flag: after four seconds at 0 FPS, a second at 100 FPS averages 20 and the page stays flagged. |
| PerformanceMonitor.LowPerformanceDetector.constructor | src/components/ui/performance-monitor.tsx:108-114 | The hook's state starts as the initial detector. |
| PerformanceMonitor.LowPerformanceDetector.CheckPerformance | src/components/ui/performance-monitor.tsx:116-140 | The state becomes that of one `checkPerformance` run. |
| Security.StripTags | src/lib/security.ts:8 | The result is no longer than the input and uses only its characters. No `<` in it is followed by a `>`. Input without `<` is unchanged. |
| Security.PlainTextUnchanged | src/lib/security.ts:3-20 | Text with neither `<` nor `&` passes `sanitizeHtml` unchanged. |
| Security.AmpersandFree | src/lib/security.ts:9-14 | No entity occurs in text without `&`. |
| Security.LaterEntitiesAbsent | src/lib/security.ts:11-14 | The last four decoding steps leave text without `&` alone. |
| Security.DecodedMarkupSurvives | src/lib/security.ts:3-15 | Encoded markup `&lt;b&gt;` comes out as the tag `<b>`, because decoding runs after stripping. |
| Security.RemoveIgnoreCase | src/lib/security.ts:33 | Removing a pattern gives no longer text made of the input's characters. |
| Security.WordRun | src/lib/security.ts:34 | The run is the longest prefix of word characters. |
| Security.HandlerMatch | src/lib/security.ts:34 | A match is `on`, one or more word characters and `=`. |
| Security.RemoveHandlers | src/lib/security.ts:34 | Removing handlers gives no longer text made of the input's characters. |
| Security.SanitizeText | src/lib/security.ts:23-35 | The output holds no `<` or `>` and neither starts nor ends with white space. |
| Security.SanitizeEmail | src/lib/security.ts:38-45 | The output holds only word characters, `@`, `.` and `-`, and no upper-case letter. |
| Security.SanitizeEmailIdempotent | src/lib/security.ts:38-45 | Sanitising an address twice gives the same as once. |
| Security.SanitizePhone | src/lib/security.ts:48-54 | The output holds only digits, white space and `-()+`, and neither starts nor ends with white space. |
| Security.SanitizePhoneIdempotent | src/lib/security.ts:48-54 | Sanitising a number twice gives the same as once. |
| Security.CsrfRule | src/lib/security.ts:134-136 | The check is symmetric in its two tokens. A token is accepted against itself exactly when it is longer than ten characters. |
| Security.Purge | src/lib/security.ts:73-77 | Exactly the entries whose window has not ended remain, unchanged. |
| Security.CheckRateLimit | src/lib/security.ts:64-121 | Only the caller's entry is created or updated, and other keys only lose expired entries. A call is allowed exactly for a new key or a count below the limit. The reported reset time is the entry's. |
| Security.ExpiredBranchUnreachable | src/lib/security.ts:73-103 | After the purge every surviving entry's window is still open, so the expired branch is never taken. |
| Security.RateLimitCases | src/lib/security.ts:81-120 | A new key is allowed with limit minus one remaining, even when the limit is at most zero. A denial leaves the entry and reports zero remaining. A count below the limit is incremented. |
| Security.OneWindow | src/lib/security.ts:64-121 | Within one window that starts with no live entry, exactly the first `limit` calls are allowed, and every call reports the window's reset time. |
| Security.FirstWindowCall | src/lib/security.ts:81-91 | The first call of a window creates the entry with count one and is allowed with `limit - 1` remaining. |
| Security.WindowCall | src/lib/security.ts:105-120 | A later call while the entry is live raises the count up to the limit and gets the result its position calls for: allowed below the limit, denied with zero remaining at it. |
| Security.AllowedCountOfPrefixRule | src/lib/security.ts:105-120 | When exactly the first `limit` results are allowed, the number allowed is the smaller of `limit` and the number of calls. |
| Security.AtMostLimitPerWindow | src/lib/security.ts:105-120 | At most `limit` calls are allowed in a window. |
| Security.RateLimiter.constructor | src/lib/security.ts:62 | The store starts empty. |
| Security.RateLimiter.CheckRateLimitAt | src/lib/security.ts:64-121 | The store and the result become those of the pure rule. |
| Middleware.RateConfigByPrefix | src/middleware.ts:6-10 | 5 per minute under `/api/contact`, 100 under any other `/api/` path, 200 elsewhere. |
| Middleware.SelectRateConfig | src/middleware.ts:45-53 | The selection loop returns the first matching non-default entry, else the default. |
| Middleware.ClientIp | src/middleware.ts:37-39 | The first field of `x-forwarded-for` when it is non-empty, else `x-real-ip` when it is non-empty, else `unknown`. The result is never empty. |
| Middleware.NoMarkersNeverSuspicious | src/middleware.ts:88-100 | Text without `.`, `:`, `<` or a `u` of either case matches none of the six patterns. |
| Middleware.StreamBodyNeverSuspicious | src/middleware.ts:101-109 | A request body's text, `[object ReadableStream]`, never matches, so only the URL can block. |
| Middleware.Decide | src/middleware.ts:12-131 | A redirect happens exactly for plain http in production and leaves the store alone. Every other request has used the client's counter. |
| Middleware.HttpsRedirectFirst | src/middleware.ts:16-19 | In production an http URL is redirected to the same URL over https, before any rate-limit work. |
| Middleware.DeniedBeforePatterns | src/middleware.ts:58-80 | A denied request gets the 429 response, whatever its URL, and the store is only purged. Its Retry-After, the seconds left rounded up, is at least 1. |
| Middleware.BlockedStillCounts | src/middleware.ts:56-118 | A request blocked with 400 has still used a slot of the client's counter. |
| Middleware.AllowedPasses | src/middleware.ts:21-131 | An allowed, unsuspicious request passes with the security headers, then the limit, the remaining count and the reset time in seconds, rounded up. |
| Middleware.CounterSharedAcrossPaths | src/middleware.ts:42-56 | The counter is keyed by client only. With five calls already in the window, a contact-form request gets 429, while a request to another API path is counted as the sixth. |
| Middleware.HandleRequest | src/middleware.ts:12-131 | The limiter's store and the response become those of the pure decision. |
| Validation.At | src/lib/validation.ts:4-67 | Each message becomes an issue under the field's path, in order. |
| Validation.BusinessNameRule | src/lib/validation.ts:5-9 | Accepted exactly at 1 to 100 characters of letters, digits, white space and `-&.,()`. An empty name gets two messages. |
| Validation.ContactNameRule | src/lib/validation.ts:11-15 | Accepted exactly at 1 to 50 characters of letters, white space, `-` and `'`. |
| Validation.EmailRule | src/lib/validation.ts:17-21 | Accepted exactly when non-empty, at most 254 characters and passing the e-mail test. |
| Validation.IndustryRule | src/lib/validation.ts:31-37 | Accepted exactly for the eight listed industries. An empty one gets both messages. |
| Validation.OptionalRule | src/lib/validation.ts:23-66 | An optional field passes exactly when absent, empty or accepted by its refinement. A value of another type fails. |
| Validation.PhoneRule | src/lib/validation.ts:23-29 | Without separators, a number is accepted exactly when it is an optional `+` and then 1 to 16 digits, the first not 0. |
| Validation.FormAcceptedRule | src/lib/validation.ts:4-67 | The form is accepted exactly when every field is. |
| Validation.MessagesAtPresence | src/lib/validation.ts:83-89 | A path has messages exactly when some issue has it. |
| Validation.GroupedShape | src/lib/validation.ts:83-89 | The grouped keys are exactly the issue paths, each with a non-empty list. |
| Validation.GroupedStep | src/lib/validation.ts:83-89 | One more issue appends its message under its path and changes no other path. |
| Validation.GroupByPath | src/lib/validation.ts:83-89 | The in-place grouping loop builds the grouped dictionary. |
| Validation.ValidateInput | src/lib/validation.ts:72-94 | Success carries the data. A schema error gives the grouped messages. Any other failure gives `general: Validation failed`. |
| Validation.ContactFormValidation | src/lib/validation.ts:72-94 | Validation succeeds exactly when the schema finds no issue. Otherwise the errors are the grouped issues. A non-object input gets one issue at the root: `Required` when it is undefined, `Expected object, received` and its type otherwise. |
| ErrorHandler.NewAppError | src/lib/error-handler.ts:7-18 | An application error defaults to status 500 and operational. |
| ErrorHandler.WithOwnPrototype | src/lib/error-handler.ts:16 | The corrected constructor: the object keeps the prototype of the class that built it and nothing else changes. |
| ErrorHandler.ErrorClassDefaults | src/lib/error-handler.ts:20-39 | Validation errors are 400 `VALIDATION_ERROR`. Rate-limit errors are 429 `RATE_LIMIT_ERROR`, by default `Rate limit exceeded`. Security errors are 403 `SECURITY_ERROR`. All are operational. |
| ErrorHandler.CreateErrorResponse | src/lib/error-handler.ts:42-128 | The step-by-step method gives the response of the pure rule. Details and `Retry-After` depend on the object's prototype, as `instanceof` does. |
| ErrorHandler.AppErrorAndNonErrorRules | src/lib/error-handler.ts:43-62 | An application error keeps its status and message, with code defaulting to `APP_ERROR`. A non-error value gives 500 `INTERNAL_ERROR` `Internal server error`. |
| ErrorHandler.SchemaErrorRule | src/lib/error-handler.ts:63-72 | A schema error gives 400 `Validation failed` with every message filed under its dotted path. |
| ErrorHandler.PlainErrorRule | src/lib/error-handler.ts:73-87 | An unexpected error is logged and gives 500. Its message is shown only outside production. |
| ErrorHandler.ProductionHidesInternals | src/lib/error-handler.ts:73-87 | In production only an application error's own message reaches the body. |
| ErrorHandler.ResponseShape | src/lib/error-handler.ts:102-122 | An error id appears exactly in production. nosniff and DENY are always set. Retry-After appears exactly for an object whose prototype is that of `RateLimitError` and whose delay is non-zero. |
| ErrorHandler.SubclassesLoseTheirClass | src/lib/error-handler.ts:14-62 | As written, every subclass instance has the prototype of `AppError`. So no validation error sends its details, and no rate-limit error sends `Retry-After`. |
| ErrorHandler.CorrectedSubclassesKeepTheirClass | src/lib/error-handler.ts:51-122 | With the prototype fixed, a validation error sends the details it was given. A rate-limit error sends `Retry-After` exactly when its delay is present and non-zero. A security error answers as before. |
| ErrorHandler.SecurityErrorsLogged | src/lib/error-handler.ts:90-100 | Rate-limit and security errors are always logged as security events. Validation errors are not. |
| ErrorHandler.SanitizeRules | src/lib/error-handler.ts:157-177 | An application error's message and code always reach the client. Other errors show their message only outside production. A non-error value, or any error in production other than an application one, gets the generic text. |
| ErrorHandler.OperationalRule | src/lib/error-handler.ts:180-185 | Every validation, rate-limit and security error is operational, whatever its message. An application error built as non-operational is not, and nothing that is not an application error is. |
| CheckEnv.MissingSpec | scripts/check-env.js:40-57 | A finding is reported exactly for each listed name that is missing, with at most one per name. |
| CheckEnv.CheckRequired | scripts/check-env.js:40-48 | The loop yields the required-variable errors and warnings. |
| CheckEnv.CheckRecommended | scripts/check-env.js:51-57 | The loop yields the recommended-variable warnings. |
| CheckEnv.PartKinds | scripts/check-env.js:40-57 | Each loop reports only its own kind of finding. |
| CheckEnv.RequiredRule | scripts/check-env.js:40-48 | A missing or empty required variable is an error exactly in production and a warning exactly elsewhere. |
| CheckEnv.RecommendedRule | scripts/check-env.js:51-57 | A missing recommended variable is a warning exactly in production, and never an error. |
| CheckEnv.UrlRule | scripts/check-env.js:60-66 | A URL variable is an error exactly when it is set and does not parse. |
| CheckEnv.HttpsRule | scripts/check-env.js:69-71 | In production, a set app URL not starting with `https://` is an error, and only then. |
| CheckEnv.PatternFindingsCount | scripts/check-env.js:76-80 | One key yields one exposure finding, for itself, per pattern it matches. |
| CheckEnv.ExposureKinds | scripts/check-env.js:74-82 | The scan reports only exposures of public keys it was given. |
| CheckEnv.ExposureCount | scripts/check-env.js:74-82 | Each key is reported as often as it occurs times the number of sensitive patterns it matches, if public. |
| CheckEnv.ScanKeys | scripts/check-env.js:74-82 | The nested loops yield the exposure findings. |
| CheckEnv.ExposureRule | scripts/check-env.js:74-82 | Over the whole check, each public variable is an error once per pattern it matches, and never a warning. |
| CheckEnv.NoMatchNoCount | scripts/check-env.js:25-30 | A name that matches no pattern is counted for none. |
| CheckEnv.NoKeyNoHits | scripts/check-env.js:25-30 | A name with neither `k` nor `w` in either case matches no sensitive pattern. |
| CheckEnv.PublicUrlsNotSensitive | scripts/check-env.js:25-30 | The two public URL variables are never reported as sensitive. |
| CheckEnv.ApiKeyOnlyOnce | scripts/check-env.js:25-30 | A public name with `api` before `key` and no `w` or `r` is reported exactly once. |
| CheckEnv.ExampleKeyOf | scripts/check-env.js:131 | A key holds no `=` and neither starts nor ends with white space. |
| CheckEnv.KeysOfLinesSound | scripts/check-env.js:127-131 | Every key comes from an assignment line. |
| CheckEnv.KeysOfLinesComplete | scripts/check-env.js:127-131 | Every assignment line's key is listed. |
| CheckEnv.ExampleKeysSpec | scripts/check-env.js:127-131 | A key is listed exactly when some line holds `=`, does not start with `#`, and has it as its trimmed text before the first `=`. |
| CheckEnv.CheckEnvFiles | scripts/check-env.js:112-141 | The method returns the file warnings of the pure rule. |
| CheckEnv.CheckExampleKeys | scripts/check-env.js:133-137 | The loop yields, in order, one warning for each required production variable the example file does not list. |
| CheckEnv.FileWarningKinds | scripts/check-env.js:112-141 | The file checks only add file warnings. |
| CheckEnv.ExampleRule | scripts/check-env.js:116-137 | A required variable is reported missing from `.env.example` exactly when the file has no such key. There are at most five warnings. A missing example file warns once, after the missing `.env.local`. |
| CheckEnv.CheckEnvironmentVariables | scripts/check-env.js:32-101 | The method collects exactly the errors and warnings of the pure check, in order. |
| CheckEnv.RunChecks | scripts/check-env.js:182-191 | The script's exit code is that of the pure rule. |
| CheckEnv.ExitRule | scripts/check-env.js:88-191 | The build passes exactly when neither check reports an error and `next.config.ts` could be read. Warnings never fail it, and a missing middleware file always does. |
| CheckEnv.SecurityRule | scripts/check-env.js:143-179 | Only a missing middleware file is an error. Each missing header name in the configuration gives exactly one warning. |

## Left out

- `throttle`, `debounce` and `measurePerformance` in `src/lib/performance-utils.ts` are timer and console helpers. The WebGL and refresh-rate probes are host calls. Their results are fields of the capability record.
- The browser's scheduling is not modelled. `requestAnimationFrame`, `setInterval` and the event listeners become explicit events (`Frame`, `PageHidden`, `PageVisible`, `MemorySample`) handled one at a time. The memory check runs only when the host asks. When the low-performance flag changes, the re-run of the monitoring effect is not an event of its own: `RunFrame` and `MemoryCheck` fold it in through `RestartMeasuring`, as if it finished before the next frame.
- The host heap figures become parameters. `performance.memory` is absent on most browsers, which the model writes as `None`.
- `generateCSRFToken` depends on randomness and is not modelled.
- `logSecurityEvent` writes to the console. The error handler keeps only whether it would log, in the flags `unexpectedLogged` and `securityLogged`.
- `setupGlobalErrorHandlers` installs process hooks and exits, so it is not modelled.
- `withErrorHandler`, `handleAsyncError` and `ErrorBoundary` are wrappers around the modelled `createErrorResponse` and are not modelled.
- The middleware's `Set-Cookie` rewrite (src/middleware.ts:28-34) and its `api_request` log are not modelled.
- The base64 user-agent fragment in the client id is a parameter `agentTag`. Node's `Buffer` is not part of this model.
- `request.body.toString()` on a body stream is the constant text `[object ReadableStream]`. Bodies of other kinds are not modelled.
- `rateLimitSchema` and `envSchema` in `src/lib/validation.ts` are not modelled. `src/lib/env.ts` is not part of this model either, so `isProduction` is a parameter.
- The e-mail test (`.email()`) is a parameter `isEmail`, and the URL parser is a parameter `isValidUrl`.
- The file system of `scripts/check-env.js` becomes parameters: whether a file exists, and what reading it gives. Console output and `process.exit` become the returned findings and exit code.
- The random `errorId` is a parameter. The timestamp of `sanitizeErrorForClient` is left out.
- Case mapping covers ASCII only, not full Unicode. String lengths count Dafny characters, not UTF-16 code units.
- Floating-point rounding is modelled with integers. Time is in whole milliseconds, and frame rates are rounded with `RoundDiv` and `CeilDiv`.
- `Date.now()` is read once per middleware call.
- JavaScript object key order and header-name case are not modelled. Headers are an ordered list of pairs.
- An environment lookup takes the first entry for a name. Names in `process.env` are unique.
- Security.CheckRateLimit: the branch for an expired window can never be taken, because the purge runs first. The function keeps the branch. `ExpiredBranchUnreachable` and the `assert false` in `RateLimiter.CheckRateLimitAt` show that it is never taken.
- PerformanceContext.SteadyRateKeepsTier: a sustained rate of 30 to 39 FPS never demotes a high tier to medium. The provider consults `adaptQuality` only when the below-30 flag flips, and the model follows that code.
- Security.DecodedMarkupSurvives: `stripHtmlTags` decodes entities after removing tags, so encoded markup comes back as markup. The model keeps the source's order.
- ErrorHandler.SanitizeRules: outside production, a schema error's own message reaches the client, because a schema error is an `Error`. The model keeps that.
- Validation.GroupByPath: the source groups into a plain object `{}`, so a path key naming an inherited property (`constructor`, `toString`, `__proto__`) finds a truthy value, skips the `= []` and throws a `TypeError` at `.push`. The model groups such keys like any other. No path of the contact-form schema is such a key.
- ErrorHandler.CreateErrorResponse: the schema-error branch groups the same way into `{}` and throws for the same keys; the model groups them like any other.

## Findings

| source | as written | input that shows it | evidently intended | confidence | as-written member | corrected member |
|---|---|---|---|---|---|---|
| src/lib/error-handler.ts:16 | The `AppError` constructor sets the prototype to `AppError.prototype`. This also runs inside each subclass constructor, so `instanceof ValidationError` and `instanceof RateLimitError` are false for every object those constructors build. | `new ValidationError('bad', {email: ['x']})` is answered 400 without `details`. `new RateLimitError(undefined, 60)` gets no `Retry-After` header. | `Object.setPrototypeOf(this, new.target.prototype)`, so each object keeps its own class. | high; not executed | ErrorHandler.SubclassesLoseTheirClass | ErrorHandler.CorrectedSubclassesKeepTheirClass |
| src/contexts/PerformanceContext.tsx:108-113 | The visible branch, commented "Resume FPS monitoring", only requests a one-shot reset of the reference time and the counter. The hide branch cancelled the measuring frame, so the loop stays stopped until a memory check sets the low-performance flag. | Hide the page, then show it: after the next frame nothing is pending, and without memory pressure no frame rate is sampled again. | The reset callback also calls `requestAnimationFrame(measureFPS)`, so measuring resumes. | medium; not executed | PerformanceContext.HideShowStopsLoop | PerformanceContext.ShowResumesLoop |
