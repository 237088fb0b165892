/**
 * The application builder: an `App` wraps a Koa application and appends
 * middleware to its chain, one registration per call, in the caller's order.
 *
 * The Koa application is represented only by its middleware list; every
 * middleware a third-party library builds is a value recording the options it
 * was built with.
 */
module AppBuilder {
  import opened Wrappers
  import CorsOrigin
  import SecurityMiddlewares

  /** Options of the request-id middleware; an absent key is left to that library's own default. */
  datatype RequestIdOptions = RequestIdOptions(expose: Option<string>, header: Option<string>, query: Option<string>)

  /** The options used when `addRequestIdMiddleware` gets no (or a falsy) argument. */
  const DefaultRequestIdOptions: RequestIdOptions :=
    RequestIdOptions(Some("x-request-id"), Some("x-request-id"), Some("x-request-id"))

  /** Options handed unchanged to a library this module does not interpret. */
  type Settings = map<string, string>

  datatype Middleware =
    | Cors(cors: CorsOrigin.CorsMiddleware)
    | MethodOverride(fieldName: Option<string>)
    | BodyParser(bodyOptions: Option<Settings>)
    | RequestId(requestIdOptions: RequestIdOptions)
    | Security(security: SecurityMiddlewares.SecurityMiddleware)
    | EnforceSsl(sslOptions: Option<Settings>)
    /** Any other middleware function, named by the caller. */
    | Handler(name: string)

  /** Every security middleware, wrapped as an entry of the chain, in order. */
  function AsChainEntries(ms: seq<SecurityMiddlewares.SecurityMiddleware>): (r: seq<Middleware>)
    ensures |r| == |ms| && forall i :: 0 <= i < |ms| ==> r[i] == Security(ms[i])
  {
    if ms == [] then [] else [Security(ms[0])] + AsChainEntries(ms[1..])
  }

  lemma AsChainEntriesExtend(ms: seq<SecurityMiddlewares.SecurityMiddleware>, i: nat)
    requires i < |ms|
    ensures AsChainEntries(ms[..i + 1]) == AsChainEntries(ms[..i]) + [Security(ms[i])]
  {
  }

  /** The middleware chain of a Koa application. */
  class KoaApplication {
    var middleware: seq<Middleware>

    constructor ()
      ensures middleware == []
    {
      middleware := [];
    }

    method Use(m: Middleware)
      modifies this
      ensures middleware == old(middleware) + [m]
    {
      middleware := middleware + [m];
    }
  }

  class App {
    /** The wrapped application; the caller may keep using it directly. */
    const koaApp: KoaApplication

    constructor (koaApp: KoaApplication)
      ensures this.koaApp == koaApp
    {
      this.koaApp := koaApp;
    }

    method AddMiddleware(m: Middleware)
      modifies koaApp
      ensures koaApp.middleware == old(koaApp.middleware) + [m]
    {
      koaApp.Use(m);
    }

    /** `None` stands for a call without an argument. */
    method AddCorsSupportMiddleware(options: Option<CorsOrigin.CorsOptions>)
      modifies koaApp
      ensures koaApp.middleware == old(koaApp.middleware) + [Cors(CorsOrigin.ConfigureCors(options))]
    {
      var args := options.GetOr(CorsOrigin.DefaultCorsOptions);
      var origin := CorsOrigin.Wildcard;
      if args.allowOrigin.RegExp? {
        origin := CorsOrigin.Resolver(args.allowOrigin.matches);
      }
      AddMiddleware(Cors(CorsOrigin.CorsMiddleware(origin, args.allowMethods)));
    }

    method AddMethodOverrideMiddleware(fieldName: Option<string>)
      modifies koaApp
      ensures koaApp.middleware == old(koaApp.middleware) + [MethodOverride(fieldName)]
    {
      AddMiddleware(MethodOverride(fieldName));
    }

    method AddBodyParseMiddleware(options: Option<Settings>)
      modifies koaApp
      ensures koaApp.middleware == old(koaApp.middleware) + [BodyParser(options)]
    {
      AddMiddleware(BodyParser(options));
    }

    /** `None` stands for any falsy argument, which selects `x-request-id` for all three keys. */
    method AddRequestIdMiddleware(options: Option<RequestIdOptions>)
      modifies koaApp
      ensures |koaApp.middleware| == |old(koaApp.middleware)| + 1
      ensures koaApp.middleware[..|old(koaApp.middleware)|] == old(koaApp.middleware)
      ensures options.Some? ==> koaApp.middleware[|old(koaApp.middleware)|] == RequestId(options.value)
      ensures options.None? ==>
        koaApp.middleware[|old(koaApp.middleware)|]
          == RequestId(RequestIdOptions(Some("x-request-id"), Some("x-request-id"), Some("x-request-id")))
    {
      var chosen := options.GetOr(DefaultRequestIdOptions);
      AddMiddleware(RequestId(chosen));
    }

    /** Appends the factory's whole selection for `options`, in its order, after the existing entries. */
    method AddSecurityMiddlewares(options: SecurityMiddlewares.Options)
      modifies koaApp
      ensures koaApp.middleware
           == old(koaApp.middleware)
            + AsChainEntries(SecurityMiddlewares.Selected(SecurityMiddlewares.Merge(SecurityMiddlewares.DefaultConfig, options)))
    {
      var factory := new SecurityMiddlewares.SecurityMiddlewareFactory(options);
      var ms := factory.GetMiddlewares();
      var i := 0;
      while i < |ms|
        invariant 0 <= i <= |ms|
        invariant koaApp.middleware == old(koaApp.middleware) + AsChainEntries(ms[..i])
      {
        AddMiddleware(Security(ms[i]));
        AsChainEntriesExtend(ms, i);
        i := i + 1;
      }
      assert ms[..i] == ms;
    }

    method AddEnforceSSLMiddleware(options: Option<Settings>)
      modifies koaApp
      ensures koaApp.middleware == old(koaApp.middleware) + [EnforceSsl(options)]
    {
      AddMiddleware(EnforceSsl(options));
    }
  }

  /** Entries appended by `addSecurityMiddlewares`: between 2 and 5, CSP then HSTS first, each toggled entry iff its option allows it. */
  lemma SecurityRegistration(options: SecurityMiddlewares.Options)
    ensures var c := SecurityMiddlewares.Merge(SecurityMiddlewares.DefaultConfig, options);
      var added := AsChainEntries(SecurityMiddlewares.Selected(c));
      && 2 <= |added| <= 5
      && added[0] == Security(SecurityMiddlewares.ContentSecurityPolicyMiddleware(c.csp))
      && added[1] == Security(SecurityMiddlewares.HstsMiddleware(c.hsts))
      && (Security(SecurityMiddlewares.XssFilterMiddleware) in added <==> options.useXssFilter.GetOr(true))
      && (Security(SecurityMiddlewares.NoSniffMiddleware) in added <==> options.useNoSniff.GetOr(true))
  {
    var c := SecurityMiddlewares.Merge(SecurityMiddlewares.DefaultConfig, options);
    var ms := SecurityMiddlewares.Selected(c);
    SecurityMiddlewares.SelectedShape(c);
    SecurityMiddlewares.TogglesFromOptions(options);
    ChainEntryMembership(ms, SecurityMiddlewares.XssFilterMiddleware);
    ChainEntryMembership(ms, SecurityMiddlewares.NoSniffMiddleware);
    SecurityMiddlewares.FlagMiddlewareMembership(ms);
  }

  lemma ChainEntryMembership(ms: seq<SecurityMiddlewares.SecurityMiddleware>, m: SecurityMiddlewares.SecurityMiddleware)
    ensures Security(m) in AsChainEntries(ms) <==> m in ms
  {
    var added := AsChainEntries(ms);
    if Security(m) in added {
      var j :| 0 <= j < |added| && added[j] == Security(m);
      assert ms[j] == m;
    }
    if m in ms {
      var j :| 0 <= j < |ms| && ms[j] == m;
      assert added[j] == Security(m);
    }
  }

  /** A bootstrap in the style of the CORS examples: default CORS support, then a handler. */
  method DefaultCorsBootstrap() returns (koa: KoaApplication)
    ensures fresh(koa)
    ensures |koa.middleware| == 2
    ensures koa.middleware[0].Cors? && koa.middleware[0].cors.AllowOriginFor("http://koajs.com") == Some("*")
    ensures koa.middleware[0].cors.allowMethods == Some("GET,HEAD,PUT,POST,DELETE,PATCH")
    ensures koa.middleware[1] == Handler("body")
  {
    koa := new KoaApplication();
    var app := new App(koa);
    app.AddCorsSupportMiddleware(None);
    koa.Use(Handler("body"));
  }
}
