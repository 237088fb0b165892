/**
 * The CORS origin policy the application builder configures: either the
 * wildcard `*`, or a per-request resolver that echoes the request's `Origin`
 * header when it satisfies the caller's pattern or is a local-development
 * origin, and yields nothing otherwise.
 *
 * The caller's regular expression is an abstract predicate on strings; only the
 * fixed local-development pattern `/\/localhost(:\d+)?$/` is modelled concretely.
 */
module CorsOrigin {
  import opened Wrappers

  // ---------------------------------------------------------------------------
  // The local-development pattern
  // ---------------------------------------------------------------------------

  /** `\d` of a JavaScript regular expression: an ASCII decimal digit. */
  predicate IsDigit(c: char) {
    '0' <= c <= '9'
  }

  predicate AllDigits(d: string) {
    forall j :: 0 <= j < |d| ==> IsDigit(d[j])
  }

  predicate EndsWith(s: string, suffix: string) {
    |suffix| <= |s| && s[|s| - |suffix|..] == suffix
  }

  /** The length of the longest run of digits that ends `s`. */
  function TrailingDigits(s: string): (n: nat)
    ensures n <= |s|
    ensures forall j :: |s| - n <= j < |s| ==> IsDigit(s[j])
    ensures n < |s| ==> !IsDigit(s[|s| - n - 1])
  {
    if s != [] && IsDigit(s[|s| - 1]) then TrailingDigits(s[..|s| - 1]) + 1 else 0
  }

  /** The recogniser for `/\/localhost(:\d+)?$/`: strip the trailing digits, then look at what precedes them. */
  predicate IsLocalhostOrigin(s: string) {
    || EndsWith(s, "/localhost")
    || (var n := TrailingDigits(s); n > 0 && EndsWith(s[..|s| - n], "/localhost:"))
  }

  /**
   * What the pattern accepts: `s` ends in `/localhost`, or `s` splits at some `i` into a part
   * ending in `/localhost:` and a non-empty run of digits.
   */
  ghost predicate MatchesLocalhostPattern(s: string) {
    || EndsWith(s, "/localhost")
    || exists i :: 0 <= i < |s| && EndsWith(s[..i], "/localhost:") && AllDigits(s[i..])
  }

  lemma LocalhostRecogniserCorrect(s: string)
    ensures IsLocalhostOrigin(s) <==> MatchesLocalhostPattern(s)
  {
    RecogniserSound(s);
    RecogniserComplete(s);
  }

  lemma RecogniserSound(s: string)
    ensures IsLocalhostOrigin(s) ==> MatchesLocalhostPattern(s)
  {
    var n := TrailingDigits(s);
    if n > 0 && EndsWith(s[..|s| - n], "/localhost:") {
      var i := |s| - n;
      assert AllDigits(s[i..]) by {
        forall j | 0 <= j < |s[i..]| ensures IsDigit(s[i..][j]) {
          assert s[i..][j] == s[i + j];
        }
      }
    }
  }

  /** A split point of the second form is exactly where the trailing digits begin. */
  lemma RecogniserComplete(s: string)
    ensures MatchesLocalhostPattern(s) ==> IsLocalhostOrigin(s)
  {
    if !EndsWith(s, "/localhost") && MatchesLocalhostPattern(s) {
      var i :| 0 <= i < |s| && EndsWith(s[..i], "/localhost:") && AllDigits(s[i..]);
      var n := TrailingDigits(s);
      assert s[..i][i - 1] == ':';
      assert n >= |s| - i;
      assert n <= |s| - i;
      assert s[..|s| - n] == s[..i];
    }
  }

  // ---------------------------------------------------------------------------
  // The origin resolver
  // ---------------------------------------------------------------------------

  /**
   * The per-request resolver: `incoming` is the request's `Origin` header (the empty string
   * when the request has none), `matches` the caller's pattern.
   */
  function ResolveOrigin(matches: string -> bool, incoming: string): (r: Option<string>)
    ensures r.Some? ==> r.value == incoming
    ensures r.Some? <==> matches(incoming) || MatchesLocalhostPattern(incoming)
  {
    LocalhostRecogniserCorrect(incoming);
    if matches(incoming) then Some(incoming)
    else if IsLocalhostOrigin(incoming) then Some(incoming)
    else None
  }

  /** The `allowOrigin` option: a regular expression, a string such as `'*'`, or absent. */
  datatype AllowOrigin = RegExp(matches: string -> bool) | Text(text: string) | Absent

  /** The `origin` handed to the CORS middleware: the wildcard, or the resolver for a pattern. */
  datatype OriginSetting = Wildcard | Resolver(matches: string -> bool)

  /** Only a regular expression selects the resolver; any other value keeps the wildcard. */
  function OriginFor(allowOrigin: AllowOrigin): OriginSetting {
    match allowOrigin
    case RegExp(p) => Resolver(p)
    case _ => Wildcard
  }

  /** The CORS middleware as configured: its `origin` and its `allowMethods` (absent = `undefined`). */
  datatype CorsMiddleware = CorsMiddleware(origin: OriginSetting, allowMethods: Option<string>) {

    /** The `Access-Control-Allow-Origin` value for a request whose `Origin` header is `incoming`. */
    function AllowOriginFor(incoming: string): Option<string> {
      match origin
      case Wildcard => Some("*")
      case Resolver(p) => ResolveOrigin(p, incoming)
    }
  }

  datatype CorsOptions = CorsOptions(allowOrigin: AllowOrigin, allowMethods: Option<string>)

  const DefaultAllowMethods: string := "GET,HEAD,PUT,POST,DELETE,PATCH"

  /** The options used when the caller passes no argument at all. */
  const DefaultCorsOptions: CorsOptions := CorsOptions(Text("*"), Some(DefaultAllowMethods))

  /**
   * The configuration chosen for `addCorsSupportMiddleware(options)`, `None` standing for a call
   * without an argument. The defaults apply only to a missing argument: an options object without
   * `allowMethods` passes `undefined` on.
   */
  function ConfigureCors(options: Option<CorsOptions>): CorsMiddleware {
    var args := options.GetOr(DefaultCorsOptions);
    CorsMiddleware(OriginFor(args.allowOrigin), args.allowMethods)
  }

  // ---------------------------------------------------------------------------
  // Properties of the policy
  // ---------------------------------------------------------------------------

  /** Called with no argument: origin `*` for every request, and the default method list. */
  lemma DefaultCorsIsWildcard(incoming: string)
    ensures ConfigureCors(None).AllowOriginFor(incoming) == Some("*")
    ensures ConfigureCors(None).allowMethods == Some("GET,HEAD,PUT,POST,DELETE,PATCH")
  {
  }

  /** Any `allowOrigin` that is not a regular expression keeps the wildcard, and `allowMethods` is passed on as given. */
  lemma NonRegExpIsWildcard(options: CorsOptions, incoming: string)
    requires !options.allowOrigin.RegExp?
    ensures ConfigureCors(Some(options)).AllowOriginFor(incoming) == Some("*")
    ensures ConfigureCors(Some(options)).allowMethods == options.allowMethods
  {
  }

  /**
   * With a pattern: an origin that satisfies it, or that is a local-development origin, is echoed
   * unchanged; any other origin yields nothing; and nothing but the incoming origin is ever produced.
   */
  lemma PatternPolicy(matches: string -> bool, allowMethods: Option<string>, incoming: string)
    ensures var r := ConfigureCors(Some(CorsOptions(RegExp(matches), allowMethods))).AllowOriginFor(incoming);
      && (r.Some? ==> r.value == incoming)
      && (matches(incoming) ==> r == Some(incoming))
      && (!matches(incoming) && MatchesLocalhostPattern(incoming) ==> r == Some(incoming))
      && (!matches(incoming) && !MatchesLocalhostPattern(incoming) ==> r == None)
  {
  }

  /** A request without an `Origin` header never gets an origin from the local-development exception. */
  lemma MissingOriginOnlyByPattern(matches: string -> bool)
    ensures ResolveOrigin(matches, "") == (if matches("") then Some("") else None)
  {
    assert !MatchesLocalhostPattern("");
  }

  /** The pattern `/emarsys\.(com|net)$/`, as a predicate. */
  predicate EmarsysPattern(s: string) {
    EndsWith(s, "emarsys.com") || EndsWith(s, "emarsys.net")
  }

  /** An origin the pattern matches is echoed. */
  lemma MatchingOriginExample()
    ensures ResolveOrigin(EmarsysPattern, "https://anyserver.emarsys.com") == Some("https://anyserver.emarsys.com")
  {
  }

  /** Any origin of the form `<prefix>/localhost:<digits>` is a local-development origin. */
  lemma LocalhostWithPort(prefix: string, port: string)
    requires |port| > 0 && AllDigits(port)
    ensures MatchesLocalhostPattern(prefix + "/localhost:" + port)
  {
    var s := prefix + "/localhost:" + port;
    var i := |prefix| + 11;
    assert s[..i] == prefix + "/localhost:";
    assert s[i..] == port;
  }

  lemma LocalDevelopmentOriginFacts()
    ensures !EmarsysPattern("http://localhost:4000")
    ensures MatchesLocalhostPattern("http://localhost:4000")
  {
    var local := "http://localhost:4000";
    assert local[|local| - 11..][0] != "emarsys.com"[0];
    assert local[|local| - 11..][0] != "emarsys.net"[0];
    assert local == "http:/" + "/localhost:" + "4000";
    LocalhostWithPort("http:/", "4000");
  }

  /** A local-development origin is echoed although the pattern does not match it. */
  lemma LocalhostOriginExample()
    ensures ResolveOrigin(EmarsysPattern, "http://localhost:4000") == Some("http://localhost:4000")
  {
    LocalDevelopmentOriginFacts();
  }

  lemma ForeignOriginFacts()
    ensures !EmarsysPattern("http://koajs.com")
    ensures !MatchesLocalhostPattern("http://koajs.com")
  {
    var koa := "http://koajs.com";
    assert koa[|koa| - 11..][0] != "emarsys.com"[0];
    assert koa[|koa| - 11..][0] != "emarsys.net"[0];
    assert TrailingDigits(koa) == 0;
    assert koa[|koa| - 10..][1] != "/localhost"[1];
    LocalhostRecogniserCorrect(koa);
  }

  /** An origin that neither matches nor is local gets nothing. */
  lemma ForeignOriginExample()
    ensures ResolveOrigin(EmarsysPattern, "http://koajs.com") == None
  {
    ForeignOriginFacts();
  }

  /** A request without an `Origin` header gets nothing under this pattern. */
  lemma MissingOriginExample()
    ensures ResolveOrigin(EmarsysPattern, "") == None
  {
    MissingOriginOnlyByPattern(EmarsysPattern);
  }

  /** The exception needs a `/` right before `localhost`: a subdomain of localhost is not exempt. */
  lemma SubdomainOfLocalhostNotExempt()
    ensures !MatchesLocalhostPattern("http://app.localhost:3000")
  {
    var s := "http://app.localhost:3000";
    assert s[..|s| - 1] == "http://app.localhost:300";
    assert s[..|s| - 1][..|s| - 2] == "http://app.localhost:30";
    assert s[..|s| - 1][..|s| - 2][..|s| - 3] == "http://app.localhost:3";
    assert s[..|s| - 1][..|s| - 2][..|s| - 3][..|s| - 4] == "http://app.localhost:";
    assert TrailingDigits("http://app.localhost:") == 0;
    assert TrailingDigits(s) == 4;
    assert s[..|s| - 4][|s| - 4 - 11..][0] != "/localhost:"[0];
    assert s[|s| - 10..][0] != "/localhost"[0];
    LocalhostRecogniserCorrect(s);
  }
}
