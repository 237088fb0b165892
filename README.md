# boar-koa-server application bootstrap and security-header factory, in Dafny

This project models the two pieces of decision logic in a Koa server bootstrap library:

- **The security middleware factory** (`lib/security-middleware-factory/index.js`). The factory
  deep-merges a caller's partial options onto a fixed default configuration. That configuration
  covers the CSP directives and `reportOnly`, the HSTS `maxAge`, `includeSubdomains` and `preload`,
  the `useXssFilter` and `useNoSniff` toggles, and `referrerPolicy`. From the merged configuration
  the factory builds an ordered list of middlewares: CSP and HSTS always, then XSS filter, no-sniff
  and referrer policy when their settings ask for them. Module `SecurityMiddlewares`,
  `security_middleware_factory.dfy`.
- **The application builder** (`app/index.js`). `App` wraps a Koa application, and each of its
  `add…` methods appends one middleware to the application's chain. `addSecurityMiddlewares`
  appends the factory's whole list in order. Module `AppBuilder`, `app.dfy`.
  `addCorsSupportMiddleware` picks the CORS `origin`. It is the wildcard `*` unless `allowOrigin`
  is a regular expression. In that case a per-request resolver echoes the request's `Origin`
  header when it matches the pattern or the local-development pattern `/\/localhost(:\d+)?$/`,
  and otherwise yields nothing. Module `CorsOrigin`, `cors_origin.dfy`.

Representation choices:

- Absent JavaScript keys are `Option` values (`wrappers.dfy`).
- The merge is written field by field over the fixed configuration shape. The CSP directives are
  a `map`, so overriding one directive is a map union in which the override wins. This is what
  deep-extend does to a flat object whose values are arrays or strings: an array is replaced, not
  concatenated.
- `referrerPolicy` is `Off` (the default `false`, or any other falsy value) or `On(policy)` (an
  options object, with or without `policy`). The header value is `policy` when one is given.
  Otherwise it is `no-referrer`, the default of the header library, which the factory's own tests
  rely on.
- Each middleware is a datatype value that records the configuration it was built from. The
  third-party libraries behind the middlewares are not modelled.
- The Koa application is a class holding only its `middleware` list. `App` keeps a reference to
  it, so a caller holding the same application sees every registration.
- The caller's regular expression is a predicate `string -> bool`. The local-development pattern
  is a concrete recogniser (`IsLocalhostOrigin`). It is proved equal to a direct statement of what
  the pattern accepts (`MatchesLocalhostPattern`).

Three details of the code are easy to miss:

- The local-development exception needs a literal `/` right before `localhost`. So
  `http://app.localhost:3000` is not exempt (`CorsOrigin.SubdomainOfLocalhostNotExempt`), even
  though its host ends in `localhost`.
- The CORS defaults (`'*'` and `GET,HEAD,PUT,POST,DELETE,PATCH`) apply only when the argument is
  missing entirely. An options object without `allowMethods` passes `undefined` on (`CorsOrigin.ConfigureCors`).
- Any `allowOrigin` that is not a regular expression gives the wildcard, not only the string `'*'`.

## Model

| member | source | states |
|---|---|---|
| `SecurityMiddlewares.SecurityMiddlewareFactory.constructor` | lib/security-middleware-factory/index.js:8-10 | the stored configuration is the caller's options merged onto the default configuration |
| `SecurityMiddlewares.MergeOverlaysFields` | lib/security-middleware-factory/index.js:9-34 | each configuration field the options leave out keeps its value; each field they supply takes the supplied value (reportOnly, maxAge, includeSubdomains, preload, both toggles, a falsy referrerPolicy) |
| `SecurityMiddlewares.MergeOverlaysDirectives` | lib/security-middleware-factory/index.js:14-22 | merged directives: the overridden keys take the override, every other default directive is unchanged, and no key outside the two sets appears |
| `SecurityMiddlewares.MergeIdempotent` | lib/security-middleware-factory/index.js:9 | merging the same options a second time changes nothing |
| `SecurityMiddlewares.NoOptionsGiveDefaults` | lib/security-middleware-factory/index.js:12-34 | with no options the merged configuration is the default: HSTS 30/true/false, reportOnly true, both toggles true, referrerPolicy off |
| `SecurityMiddlewares.HstsMaxAgeOverride` | lib/security-middleware-factory/index.js:25-29 | overriding only `hsts.maxAge` gives that maxAge with includeSubdomains true and preload false |
| `SecurityMiddlewares.ReportUriOverride` | lib/security-middleware-factory/index.js:14-24 | overriding only the `reportUri` directive changes that directive alone and keeps reportOnly true |
| `SecurityMiddlewares.Build` | lib/security-middleware-factory/index.js:36-54 | each getter builds the middleware of the kind it is named after |
| `SecurityMiddlewares.EnabledKindsIsSubsequence` | lib/security-middleware-factory/index.js:56-74 | the selected kinds are a subsequence of the candidate kinds |
| `SecurityMiddlewares.EnabledKindsMembership` | lib/security-middleware-factory/index.js:62-72 | a kind is selected if and only if it is a candidate and the configuration enables it |
| `SecurityMiddlewares.EnabledKindsInOrder` | lib/security-middleware-factory/index.js:56-74 | selection from an ordered candidate list keeps the fixed relative order, with no kind twice |
| `SecurityMiddlewares.EnabledKindsOfAll` | lib/security-middleware-factory/index.js:57-72 | the selection is CSP, HSTS, then XSS filter, no-sniff and referrer policy, each present exactly when its flag is set |
| `SecurityMiddlewares.SelectedShape` | lib/security-middleware-factory/index.js:56-74 | the list is a subsequence of [CSP, HSTS, XSS filter, no-sniff, referrer policy] in that order with no repeats, begins with the CSP then the HSTS middleware built from the configuration, has 2 to 5 entries, and holds each toggled kind if and only if its flag is set |
| `SecurityMiddlewares.SelectedToggles` | lib/security-middleware-factory/index.js:62-72 | among the five kinds, XSS filter is selected iff `useXssFilter`, no-sniff iff `useNoSniff`, referrer policy iff `referrerPolicy` is on |
| `SecurityMiddlewares.FlagMiddlewareMembership` | lib/security-middleware-factory/index.js:44-50 | the XSS-filter and no-sniff middlewares are in a list exactly when their kinds are |
| `SecurityMiddlewares.DefaultSelection` | lib/security-middleware-factory/index.js:56-74 | with no options the list is exactly CSP (default directives, report-only), HSTS (30, true, false), XSS filter, no-sniff |
| `SecurityMiddlewares.TogglesFromOptions` | lib/security-middleware-factory/index.js:62-72 | XSS filter is present iff `useXssFilter` is absent or true; no-sniff likewise; referrer policy iff the options give a truthy `referrerPolicy` |
| `SecurityMiddlewares.ReferrerPolicyHeader` | lib/security-middleware-factory/index.js:52-54 | the referrer-policy header is the caller's `policy` when one is given, and `no-referrer` otherwise |
| `SecurityMiddlewares.SecurityMiddlewareFactory.GetMiddlewares` | lib/security-middleware-factory/index.js:56-75 | the list built step by step equals the reference selection: every enabled kind in the fixed order, each built from the stored configuration |
| `CorsOrigin.TrailingDigits` | app/index.js:29 | the result is the length of the longest all-digit suffix: those characters are digits, and the one before them is not |
| `CorsOrigin.LocalhostRecogniserCorrect` | app/index.js:29 | the recogniser accepts a string iff it ends in `/localhost`, or in `/localhost:` followed by one or more digits |
| `CorsOrigin.LocalhostWithPort` | app/index.js:29 | every string of the form prefix, `/localhost:`, one or more digits matches the local-development pattern |
| `CorsOrigin.ResolveOrigin` | app/index.js:23-32 | the resolver yields a value iff the origin matches the caller's pattern or the local-development pattern, and that value is always the incoming origin itself |
| `CorsOrigin.DefaultCorsIsWildcard` | app/index.js:17-21 | with no argument every request gets origin `*`, and the methods are `GET,HEAD,PUT,POST,DELETE,PATCH` |
| `CorsOrigin.NonRegExpIsWildcard` | app/index.js:21-22 | any `allowOrigin` that is not a regular expression gives `*` for every request; `allowMethods` is passed on as given |
| `CorsOrigin.PatternPolicy` | app/index.js:22-32 | with a pattern: a matching origin is echoed, a non-matching local-development origin is echoed, any other origin gets nothing, and nothing but the incoming origin is produced |
| `CorsOrigin.MissingOriginOnlyByPattern` | app/index.js:24-31 | a request without `Origin` (the empty string) is never let through by the local-development exception |
| `CorsOrigin.MatchingOriginExample` | app/index.spec.js:110-117 | under the test pattern for origins ending in `emarsys.com` or `emarsys.net`, `https://anyserver.emarsys.com` is echoed |
| `CorsOrigin.LocalhostOriginExample` | app/index.spec.js:128-135 | under the same pattern, `http://localhost:4000` is echoed |
| `CorsOrigin.ForeignOriginExample` | app/index.spec.js:101-108 | under the same pattern, `http://koajs.com` gets nothing |
| `CorsOrigin.MissingOriginExample` | app/index.spec.js:93-99 | under the same pattern, a request without `Origin` gets nothing |
| `CorsOrigin.SubdomainOfLocalhostNotExempt` | app/index.js:29 | `http://app.localhost:3000` is not a local-development origin, because no `/` precedes `localhost` |
| `AppBuilder.KoaApplication.Use` | app/index.js:51 | registering appends the middleware to the end of the application's chain |
| `AppBuilder.App.constructor` | app/index.js:13-15 | the builder wraps the given application itself, not a copy |
| `AppBuilder.App.AddMiddleware` | app/index.js:50-52 | the wrapped application's chain gains the middleware at its end; earlier entries are unchanged |
| `AppBuilder.App.AddCorsSupportMiddleware` | app/index.js:17-38 | appends one CORS middleware configured as `CorsOrigin.ConfigureCors` chooses from the argument |
| `AppBuilder.App.AddMethodOverrideMiddleware` | app/index.js:54-56 | appends one method-override middleware for the given field name |
| `AppBuilder.App.AddBodyParseMiddleware` | app/index.js:58-60 | appends one body parser with the given options |
| `AppBuilder.App.AddRequestIdMiddleware` | app/index.js:62-65 | appends exactly one request-id middleware; with no options its `expose`, `header` and `query` are all `x-request-id`, otherwise the given options |
| `AppBuilder.App.AddSecurityMiddlewares` | app/index.js:67-71 | appends exactly the factory's list for the options, in order, after the unchanged earlier entries |
| `AppBuilder.App.AddEnforceSSLMiddleware` | app/index.js:73-75 | appends one SSL-enforcement middleware with the given options |
| `AppBuilder.AsChainEntries` | app/index.js:68-70 | the chain entries registered for a list of security middlewares are that list, entry by entry |
| `AppBuilder.ChainEntryMembership` | app/index.js:68-70 | a security middleware is among the registered entries iff it is in the factory's list |
| `AppBuilder.SecurityRegistration` | app/index.js:67-71 | the security registration adds 2 to 5 entries, CSP then HSTS first, with XSS filter and no-sniff present exactly when the options allow them |
| `AppBuilder.DefaultCorsBootstrap` | app/index.spec.js:14-21 | after default CORS support and a handler, the chain is the wildcard CORS middleware with the default methods, then the handler |

## Left out

- `loadControllers` (app/index.js:40-48) reads a directory and loads code from the filesystem. That is I/O and dynamic loading, so it is not modelled.
- Header writing is not modelled: the CSP, HSTS, X-XSS-Protection, X-Content-Type-Options and Referrer-Policy header strings, and any validation of directives or policy names. These belong to the header library. Each middleware records only the configuration it receives.
- The CORS library's request handling is not modelled: `Vary: Origin`, the 204 preflight answer, and the pass-through of other `OPTIONS` requests. A request without `Origin` reaches the `origin` setting as the empty string. The model stops at the `origin` value the library is given.
- The request-id, method-override, body-parser and SSL libraries are pass-through. Their options are recorded as given (`Settings` is a string map), and their per-request behaviour is not modelled.
- `SecurityMiddlewares.Merge` covers only the configuration's fixed shape. These deep-extend cases are left out: a primitive given where the defaults hold an object (such as `csp: false`), keys outside the shape, directive values other than string lists and strings, and `undefined` given explicitly. Toggles are modelled by their truthiness.
- `SecurityMiddlewares.MergeReferrerPolicy`: a truthy non-object `referrerPolicy` is modelled as `On` with no policy. That is exact for merges onto the default configuration, whose entry is `false`, the only base the factory uses. Onto an object entry with a `policy`, deep-extend would replace the entry with the primitive, while the model keeps the policy. `MergeIdempotent` and `MergeOverlaysFields` are stated for every base and follow the model there.
- `SecurityMiddlewares.HstsConfig`: `maxAge` is an unbounded integer, not a JavaScript number.
- `CorsOrigin.ResolveOrigin`: the caller's regular expression is a pure predicate. The state a sticky (`y`, without `g`) pattern keeps in `lastIndex` is not modelled.
- `AppBuilder.App.AddCorsSupportMiddleware`: a `null` argument makes the JavaScript destructuring throw, and that is not modelled. Koa's check that a registered middleware is a function is not modelled either.
- Asynchronous execution of the middleware chain, the Koa server and networking are not modelled.
