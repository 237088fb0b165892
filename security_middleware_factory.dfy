/**
 * The security middleware factory: a caller's partial options are merged onto a
 * fixed default configuration, and the merged configuration decides which
 * security-header middlewares are produced and in which order.
 *
 * Each middleware is a value that records the configuration it was built from
 * (the header-writing library behind it is not modelled).
 */
module SecurityMiddlewares {
  import opened Wrappers

  // ---------------------------------------------------------------------------
  // Configuration
  // ---------------------------------------------------------------------------

  /** A CSP directive value: a list of sources (`["'self'"]`) or a single string (a report URI). */
  datatype Directive = SourceList(sources: seq<string>) | Single(value: string)

  datatype CspConfig = CspConfig(directives: map<string, Directive>, reportOnly: bool)

  datatype HstsConfig = HstsConfig(maxAge: int, includeSubdomains: bool, preload: bool)

  /**
   * The `referrerPolicy` entry: `Off` is `false` (or any other falsy value),
   * `On` is an options object, with or without a `policy` key.
   */
  datatype ReferrerPolicySetting = Off | On(policy: Option<string>)

  datatype Config = Config(
    csp: CspConfig,
    hsts: HstsConfig,
    useXssFilter: bool,
    useNoSniff: bool,
    referrerPolicy: ReferrerPolicySetting)

  /** Caller options: every key is optional; a directive key present in `directives` overrides that directive. */
  datatype CspOptions = CspOptions(directives: map<string, Directive>, reportOnly: Option<bool>)

  datatype HstsOptions = HstsOptions(maxAge: Option<int>, includeSubdomains: Option<bool>, preload: Option<bool>)

  datatype Options = Options(
    csp: Option<CspOptions>,
    hsts: Option<HstsOptions>,
    useXssFilter: Option<bool>,
    useNoSniff: Option<bool>,
    referrerPolicy: Option<ReferrerPolicySetting>)

  /** The factory constructed with no argument. */
  const NoOptions: Options := Options(None, None, None, None, None)

  const DefaultDirectives: map<string, Directive> := map[
    "defaultSrc" := SourceList(["'self'"]),
    "scriptSrc" := SourceList(["'self'"]),
    "styleSrc" := SourceList(["'self'"]),
    "imgSrc" := SourceList(["'self'"]),
    "frameAncestors" := SourceList(["'self'"]),
    "reportUri" := Single("about:blank")]

  const DefaultConfig: Config := Config(
    CspConfig(DefaultDirectives, true),
    HstsConfig(30, true, false),
    true,
    true,
    Off)

  // ---------------------------------------------------------------------------
  // Deep merge of options onto a configuration, field by field
  // ---------------------------------------------------------------------------

  function MergeCsp(d: CspConfig, o: Option<CspOptions>): CspConfig {
    match o
    case None => d
    case Some(co) => CspConfig(d.directives + co.directives, co.reportOnly.GetOr(d.reportOnly))
  }

  function MergeHsts(d: HstsConfig, o: Option<HstsOptions>): HstsConfig {
    match o
    case None => d
    case Some(ho) =>
      HstsConfig(ho.maxAge.GetOr(d.maxAge), ho.includeSubdomains.GetOr(d.includeSubdomains), ho.preload.GetOr(d.preload))
  }

  /**
   * A falsy override replaces the entry; an object override replaces a falsy entry
   * and is merged key by key into an object entry.
   */
  function MergeReferrerPolicy(d: ReferrerPolicySetting, o: Option<ReferrerPolicySetting>): ReferrerPolicySetting {
    match o
    case None => d
    case Some(Off) => Off
    case Some(On(p)) => if d.On? && p.None? then d else On(p)
  }

  function Merge(d: Config, o: Options): Config {
    Config(
      MergeCsp(d.csp, o.csp),
      MergeHsts(d.hsts, o.hsts),
      o.useXssFilter.GetOr(d.useXssFilter),
      o.useNoSniff.GetOr(d.useNoSniff),
      MergeReferrerPolicy(d.referrerPolicy, o.referrerPolicy))
  }

  /** The directives an options value overrides (none when `csp` is absent). */
  function OverriddenDirectives(o: Options): map<string, Directive> {
    if o.csp.Some? then o.csp.value.directives else map[]
  }

  /** Every field the options leave out keeps its value in `d`; every field they supply wins. */
  lemma MergeOverlaysFields(d: Config, o: Options)
    ensures var c := Merge(d, o);
      && (o.useXssFilter.None? ==> c.useXssFilter == d.useXssFilter)
      && (o.useXssFilter.Some? ==> c.useXssFilter == o.useXssFilter.value)
      && (o.useNoSniff.None? ==> c.useNoSniff == d.useNoSniff)
      && (o.useNoSniff.Some? ==> c.useNoSniff == o.useNoSniff.value)
      && (o.referrerPolicy.None? ==> c.referrerPolicy == d.referrerPolicy)
      && (o.referrerPolicy == Some(Off) ==> c.referrerPolicy == Off)
      && (o.csp.None? || o.csp.value.reportOnly.None? ==> c.csp.reportOnly == d.csp.reportOnly)
      && (o.csp.Some? && o.csp.value.reportOnly.Some? ==> c.csp.reportOnly == o.csp.value.reportOnly.value)
      && (o.hsts.None? || o.hsts.value.maxAge.None? ==> c.hsts.maxAge == d.hsts.maxAge)
      && (o.hsts.Some? && o.hsts.value.maxAge.Some? ==> c.hsts.maxAge == o.hsts.value.maxAge.value)
      && (o.hsts.None? || o.hsts.value.includeSubdomains.None? ==> c.hsts.includeSubdomains == d.hsts.includeSubdomains)
      && (o.hsts.Some? && o.hsts.value.includeSubdomains.Some? ==>
            c.hsts.includeSubdomains == o.hsts.value.includeSubdomains.value)
      && (o.hsts.None? || o.hsts.value.preload.None? ==> c.hsts.preload == d.hsts.preload)
      && (o.hsts.Some? && o.hsts.value.preload.Some? ==> c.hsts.preload == o.hsts.value.preload.value)
  {
  }

  /** Directives: overridden keys take the override, the others keep their value, and no other key appears. */
  lemma MergeOverlaysDirectives(d: Config, o: Options)
    ensures var c := Merge(d, o);
      && c.csp.directives.Keys == d.csp.directives.Keys + OverriddenDirectives(o).Keys
      && (forall k :: k in OverriddenDirectives(o) ==> c.csp.directives[k] == OverriddenDirectives(o)[k])
      && (forall k :: k in d.csp.directives && k !in OverriddenDirectives(o) ==>
            c.csp.directives[k] == d.csp.directives[k])
  {
  }

  /** Merging the same options a second time changes nothing. */
  lemma MergeIdempotent(d: Config, o: Options)
    ensures Merge(Merge(d, o), o) == Merge(d, o)
  {
    if o.csp.Some? {
      var ds := o.csp.value.directives;
      assert (d.csp.directives + ds) + ds == d.csp.directives + ds;
    }
  }

  /** With no options the merged configuration is the default configuration. */
  lemma NoOptionsGiveDefaults()
    ensures Merge(DefaultConfig, NoOptions) == DefaultConfig
    ensures DefaultConfig.hsts == HstsConfig(30, true, false)
    ensures DefaultConfig.csp.reportOnly
    ensures DefaultConfig.useXssFilter && DefaultConfig.useNoSniff && DefaultConfig.referrerPolicy == Off
  {
  }

  /** Overriding only `hsts.maxAge` keeps `includeSubdomains` and `preload` at their defaults. */
  lemma HstsMaxAgeOverride(maxAge: int)
    ensures Merge(DefaultConfig, NoOptions.(hsts := Some(HstsOptions(Some(maxAge), None, None)))).hsts
         == HstsConfig(maxAge, true, false)
  {
  }

  /** Overriding only the `reportUri` directive leaves every other directive and `reportOnly` at their defaults. */
  lemma ReportUriOverride(uri: string)
    ensures var o := NoOptions.(csp := Some(CspOptions(map["reportUri" := Single(uri)], None)));
      Merge(DefaultConfig, o).csp == CspConfig(DefaultDirectives["reportUri" := Single(uri)], true)
  {
    assert DefaultDirectives + map["reportUri" := Single(uri)] == DefaultDirectives["reportUri" := Single(uri)];
  }

  // ---------------------------------------------------------------------------
  // Middlewares
  // ---------------------------------------------------------------------------

  /** The five kinds of security middleware, in their fixed order. */
  datatype Kind = Csp | Hsts | XssFilter | NoSniff | ReferrerPolicy

  const AllKinds: seq<Kind> := [Csp, Hsts, XssFilter, NoSniff, ReferrerPolicy]

  /** Position of a kind in `AllKinds`. */
  function Rank(k: Kind): nat {
    match k
    case Csp => 0
    case Hsts => 1
    case XssFilter => 2
    case NoSniff => 3
    case ReferrerPolicy => 4
  }

  /** A middleware, holding the configuration it sets its header from. */
  datatype SecurityMiddleware =
    | ContentSecurityPolicyMiddleware(csp: CspConfig)
    | HstsMiddleware(hsts: HstsConfig)
    | XssFilterMiddleware
    | NoSniffMiddleware
    | ReferrerPolicyMiddleware(policy: string)
  {
    function KindOf(): Kind {
      match this
      case ContentSecurityPolicyMiddleware(_) => Csp
      case HstsMiddleware(_) => Hsts
      case XssFilterMiddleware => XssFilter
      case NoSniffMiddleware => NoSniff
      case ReferrerPolicyMiddleware(_) => ReferrerPolicy
    }
  }

  /** The header value used when the `referrerPolicy` entry names no policy. */
  const DefaultReferrerPolicy: string := "no-referrer"

  function GetCspMiddleware(c: Config): SecurityMiddleware {
    ContentSecurityPolicyMiddleware(c.csp)
  }

  function GetHstsMiddleware(c: Config): SecurityMiddleware {
    HstsMiddleware(c.hsts)
  }

  function GetXssFilterMiddleware(): SecurityMiddleware {
    XssFilterMiddleware
  }

  function GetNoSniffMiddleware(): SecurityMiddleware {
    NoSniffMiddleware
  }

  function GetReferrerPolicyMiddleware(c: Config): SecurityMiddleware {
    match c.referrerPolicy
    case On(Some(p)) => ReferrerPolicyMiddleware(p)
    case _ => ReferrerPolicyMiddleware(DefaultReferrerPolicy)
  }

  /** The getter for each kind. */
  function Build(c: Config, k: Kind): (m: SecurityMiddleware)
    ensures m.KindOf() == k
  {
    match k
    case Csp => GetCspMiddleware(c)
    case Hsts => GetHstsMiddleware(c)
    case XssFilter => GetXssFilterMiddleware()
    case NoSniff => GetNoSniffMiddleware()
    case ReferrerPolicy => GetReferrerPolicyMiddleware(c)
  }

  /** Whether the configuration asks for a kind: CSP and HSTS always, the others by their flag. */
  predicate IsEnabled(c: Config, k: Kind) {
    match k
    case Csp => true
    case Hsts => true
    case XssFilter => c.useXssFilter
    case NoSniff => c.useNoSniff
    case ReferrerPolicy => c.referrerPolicy.On?
  }

  /** The kinds of `ks` that `c` enables, in the order of `ks`. */
  function EnabledKinds(c: Config, ks: seq<Kind>): seq<Kind> {
    if ks == [] then []
    else (if IsEnabled(c, ks[0]) then [ks[0]] else []) + EnabledKinds(c, ks[1..])
  }

  function BuildAll(c: Config, ks: seq<Kind>): (ms: seq<SecurityMiddleware>)
    ensures |ms| == |ks| && forall i :: 0 <= i < |ks| ==> ms[i] == Build(c, ks[i])
  {
    seq(|ks|, i requires 0 <= i < |ks| => Build(c, ks[i]))
  }

  function KindsOf(ms: seq<SecurityMiddleware>): (ks: seq<Kind>)
    ensures |ks| == |ms| && forall i :: 0 <= i < |ms| ==> ks[i] == ms[i].KindOf()
  {
    seq(|ms|, i requires 0 <= i < |ms| => ms[i].KindOf())
  }

  /** The reference for the aggregate getter: every enabled kind, in the fixed order, built from `c`. */
  function Selected(c: Config): seq<SecurityMiddleware> {
    BuildAll(c, EnabledKinds(c, AllKinds))
  }

  // ---------------------------------------------------------------------------
  // Properties of the selection
  // ---------------------------------------------------------------------------

  /** `xs` can be obtained from `ys` by deleting entries. */
  predicate IsSubsequence<T(==)>(xs: seq<T>, ys: seq<T>)
    decreases |ys|
  {
    if ys == [] then xs == []
    else IsSubsequence(xs, ys[1..]) || (xs != [] && xs[0] == ys[0] && IsSubsequence(xs[1..], ys[1..]))
  }

  /** Strictly increasing by `Rank`: the fixed relative order, and no kind twice. */
  predicate InOrder(ks: seq<Kind>) {
    forall i, j :: 0 <= i < j < |ks| ==> Rank(ks[i]) < Rank(ks[j])
  }

  lemma {:induction false} EnabledKindsIsSubsequence(c: Config, ks: seq<Kind>)
    ensures IsSubsequence(EnabledKinds(c, ks), ks)
    decreases |ks|
  {
    if ks != [] {
      var rest := EnabledKinds(c, ks[1..]);
      EnabledKindsIsSubsequence(c, ks[1..]);
      if IsEnabled(c, ks[0]) {
        assert EnabledKinds(c, ks) == [ks[0]] + rest;
        assert ([ks[0]] + rest)[1..] == rest;
      } else {
        assert EnabledKinds(c, ks) == rest;
      }
    }
  }

  lemma {:induction false} EnabledKindsMembership(c: Config, ks: seq<Kind>, k: Kind)
    ensures k in EnabledKinds(c, ks) <==> k in ks && IsEnabled(c, k)
    decreases |ks|
  {
    if ks != [] {
      EnabledKindsMembership(c, ks[1..], k);
      assert ks == [ks[0]] + ks[1..];
    }
  }

  lemma {:induction false} EnabledKindsInOrder(c: Config, ks: seq<Kind>)
    requires InOrder(ks)
    ensures InOrder(EnabledKinds(c, ks))
    decreases |ks|
  {
    if ks != [] {
      var rest := EnabledKinds(c, ks[1..]);
      EnabledKindsInOrder(c, ks[1..]);
      if IsEnabled(c, ks[0]) {
        forall j | 0 <= j < |rest| ensures Rank(ks[0]) < Rank(rest[j]) {
          EnabledKindsMembership(c, ks[1..], rest[j]);
          var m :| 0 <= m < |ks[1..]| && ks[1..][m] == rest[j];
          assert ks[m + 1] == rest[j];
        }
        assert EnabledKinds(c, ks) == [ks[0]] + rest;
      }
    }
  }

  lemma KindsOfBuildAll(c: Config, ks: seq<Kind>)
    ensures KindsOf(BuildAll(c, ks)) == ks
  {
  }

  /** The enabled kinds of the fixed order, written out flag by flag. */
  lemma EnabledKindsOfAll(c: Config)
    ensures EnabledKinds(c, AllKinds)
         == [Csp, Hsts]
          + (if c.useXssFilter then [XssFilter] else [])
          + (if c.useNoSniff then [NoSniff] else [])
          + (if c.referrerPolicy.On? then [ReferrerPolicy] else [])
  {
    var r := if c.referrerPolicy.On? then [ReferrerPolicy] else [];
    var n := if c.useNoSniff then [NoSniff] else [];
    var x := if c.useXssFilter then [XssFilter] else [];
    assert AllKinds[1..] == [Hsts, XssFilter, NoSniff, ReferrerPolicy];
    assert [ReferrerPolicy][1..] == [];
    assert EnabledKinds(c, [ReferrerPolicy]) == r;
    assert [NoSniff, ReferrerPolicy][1..] == [ReferrerPolicy];
    assert EnabledKinds(c, [NoSniff, ReferrerPolicy]) == n + r;
    assert [XssFilter, NoSniff, ReferrerPolicy][1..] == [NoSniff, ReferrerPolicy];
    assert EnabledKinds(c, [XssFilter, NoSniff, ReferrerPolicy]) == x + (n + r);
    assert [Hsts, XssFilter, NoSniff, ReferrerPolicy][1..] == [XssFilter, NoSniff, ReferrerPolicy];
    assert EnabledKinds(c, [Hsts, XssFilter, NoSniff, ReferrerPolicy]) == [Hsts] + (x + (n + r));
  }

  lemma SelectedKinds(c: Config)
    ensures KindsOf(Selected(c)) == EnabledKinds(c, AllKinds)
  {
    KindsOfBuildAll(c, EnabledKinds(c, AllKinds));
  }

  /**
   * The selection is a subsequence of the five kinds in their fixed order, holds no kind twice,
   * begins with CSP then HSTS, has between 2 and 5 entries, and holds each toggled kind
   * exactly when its flag is set.
   */
  lemma SelectedShape(c: Config)
    ensures var ks := KindsOf(Selected(c));
      && IsSubsequence(ks, AllKinds)
      && InOrder(ks)
      && 2 <= |ks| <= 5
      && ks[0] == Csp && ks[1] == Hsts
      && Selected(c)[0] == GetCspMiddleware(c) && Selected(c)[1] == GetHstsMiddleware(c)
      && (XssFilter in ks <==> c.useXssFilter)
      && (NoSniff in ks <==> c.useNoSniff)
      && (ReferrerPolicy in ks <==> c.referrerPolicy.On?)
  {
    SelectedKinds(c);
    EnabledKindsIsSubsequence(c, AllKinds);
    EnabledKindsInOrder(c, AllKinds);
    EnabledKindsOfAll(c);
    SelectedToggles(c);
  }

  lemma SelectedToggles(c: Config)
    ensures var ks := EnabledKinds(c, AllKinds);
      && (XssFilter in ks <==> c.useXssFilter)
      && (NoSniff in ks <==> c.useNoSniff)
      && (ReferrerPolicy in ks <==> c.referrerPolicy.On?)
  {
    EnabledKindsMembership(c, AllKinds, XssFilter);
    EnabledKindsMembership(c, AllKinds, NoSniff);
    EnabledKindsMembership(c, AllKinds, ReferrerPolicy);
  }

  /** The two middlewares without configuration are present exactly when their kind is. */
  lemma FlagMiddlewareMembership(ms: seq<SecurityMiddleware>)
    ensures XssFilterMiddleware in ms <==> XssFilter in KindsOf(ms)
    ensures NoSniffMiddleware in ms <==> NoSniff in KindsOf(ms)
  {
    var ks := KindsOf(ms);
    if XssFilter in ks {
      var j :| 0 <= j < |ks| && ks[j] == XssFilter;
      assert ms[j] == XssFilterMiddleware;
    }
    if NoSniff in ks {
      var j :| 0 <= j < |ks| && ks[j] == NoSniff;
      assert ms[j] == NoSniffMiddleware;
    }
  }

  /** With no options the selection is exactly CSP, HSTS, XSS filter and no-sniff, built from the defaults. */
  lemma DefaultSelection()
    ensures Selected(Merge(DefaultConfig, NoOptions))
         == [ContentSecurityPolicyMiddleware(CspConfig(DefaultDirectives, true)),
             HstsMiddleware(HstsConfig(30, true, false)),
             XssFilterMiddleware,
             NoSniffMiddleware]
  {
    EnabledKindsOfAll(DefaultConfig);
  }

  /** How the caller's options decide each toggled entry of the factory's selection. */
  lemma TogglesFromOptions(o: Options)
    ensures var ks := KindsOf(Selected(Merge(DefaultConfig, o)));
      && (XssFilter in ks <==> o.useXssFilter.GetOr(true))
      && (NoSniff in ks <==> o.useNoSniff.GetOr(true))
      && (ReferrerPolicy in ks <==> o.referrerPolicy.Some? && o.referrerPolicy.value.On?)
  {
    SelectedShape(Merge(DefaultConfig, o));
  }

  /** The referrer-policy header is the caller's `policy`, and `no-referrer` when none is given. */
  lemma ReferrerPolicyHeader(o: Options)
    ensures var m := GetReferrerPolicyMiddleware(Merge(DefaultConfig, o));
      && (o.referrerPolicy.Some? && o.referrerPolicy.value.On? && o.referrerPolicy.value.policy.Some? ==>
            m == ReferrerPolicyMiddleware(o.referrerPolicy.value.policy.value))
      && (o.referrerPolicy.None? || o.referrerPolicy.value.Off? || o.referrerPolicy.value.policy.None? ==>
            m == ReferrerPolicyMiddleware("no-referrer"))
  {
  }

  // ---------------------------------------------------------------------------
  // The factory object
  // ---------------------------------------------------------------------------

  class SecurityMiddlewareFactory {
    /** The merged configuration, fixed at construction. */
    const config: Config

    constructor (options: Options)
      ensures config == Merge(DefaultConfig, options)
    {
      config := Merge(DefaultConfig, options);
    }

    /** CSP and HSTS, then XSS filter, no-sniff and referrer policy as their flags ask. */
    method GetMiddlewares() returns (ms: seq<SecurityMiddleware>)
      ensures ms == Selected(config)
    {
      ms := [GetCspMiddleware(config), GetHstsMiddleware(config)];
      if config.useXssFilter {
        ms := ms + [GetXssFilterMiddleware()];
      }
      if config.useNoSniff {
        ms := ms + [GetNoSniffMiddleware()];
      }
      if config.referrerPolicy.On? {
        ms := ms + [GetReferrerPolicyMiddleware(config)];
      }
      EnabledKindsOfAll(config);
    }
  }
}
