/**
 * Base-URL resolution of `getCompany`: the absolute origin the page queries
 * for the company profile, chosen from a configured base address, the
 * forwarded request headers, or a local development fallback.
 */
module BaseUrl {
  import opened Wrappers
  import opened JsString

  const LocalFallback: string := "http://localhost:3000"
  const CompanyPath: string := "/api/open/data/company"

  /** The three request headers `getCompany` reads; `None` when a header is absent. */
  datatype RequestHeaders = RequestHeaders(
    forwardedProto: Option<string>,  // x-forwarded-proto
    forwardedHost: Option<string>,   // x-forwarded-host
    host: Option<string>)            // host

  /** An absolute `http://` or `https://` address, scheme letters in any case. */
  predicate IsHttpAddress(t: string)
  {
    StartsWithIgnoreCase(t, "http://") || StartsWithIgnoreCase(t, "https://")
  }

  /** The configured base is used when, once trimmed, it is an http(s) address. */
  predicate EnvAccepted(env: Option<string>)
  {
    env.Some? && IsHttpAddress(Trim(env.value))
  }

  /** `forwardedHost ?? h.get("host")`: a present forwarded host wins, even when empty. */
  function ResolvedHost(h: RequestHeaders): (host: Option<string>)
    ensures h.forwardedHost.Some? ==> host == h.forwardedHost
    ensures h.forwardedHost.None? ==> host == h.host
  {
    Coalesce(h.forwardedHost, h.host)
  }

  /** `process.env.NEXT_PUBLIC_BASE_URL?.trim()` */
  function EnvBase(env: Option<string>): (e: Option<string>)
    ensures e.Some? <==> env.Some?
    ensures env.Some? ==> e.value == Trim(env.value) && NoEdgeSpace(e.value)
  {
    match env
    case Some(v) => Some(Trim(v))
    case None => None
  }

  /** The test at the head of `getCompany`'s choice decides exactly `EnvAccepted`. */
  lemma EnvAcceptedIff(env: Option<string>)
    ensures (Truthy(EnvBase(env)) && MatchesHttpScheme(EnvBase(env).value)) <==> EnvAccepted(env)
  {
  }

  /** The base address `getCompany` computes before appending the query path. */
  function ResolveBase(env: Option<string>, h: RequestHeaders): (base: string)
    // (a) an accepted configured address, minus one trailing slash, whatever the headers
    ensures EnvAccepted(env) ==>
      var t := Trim(env.value);
      if t[|t| - 1] == '/' then base + "/" == t else base == t
    // (b) otherwise the forwarded protocol (default http) and the resolved host
    ensures !EnvAccepted(env) && h.forwardedHost.Some? && h.forwardedHost.value != "" ==>
      base == NullishOr(h.forwardedProto, "http") + "://" + h.forwardedHost.value
    ensures !EnvAccepted(env) && h.forwardedHost.None? && Truthy(h.host) ==>
      base == NullishOr(h.forwardedProto, "http") + "://" + h.host.value
    // (c) otherwise the local fallback; an empty forwarded host hides the host header
    ensures !EnvAccepted(env) && !Truthy(ResolvedHost(h)) ==> base == LocalFallback
    ensures !EnvAccepted(env) && h.forwardedHost == Some("") ==> base == LocalFallback
    ensures base != ""
  {
    var envBase := EnvBase(env);
    var host := ResolvedHost(h);
    EnvAcceptedIff(env);
    if Truthy(envBase) && MatchesHttpScheme(envBase.value) then
      StripTrailingSlash(envBase.value)
    else if Truthy(host) then
      NullishOr(h.forwardedProto, "http") + "://" + host.value
    else
      LocalFallback
  }

  /** The URL fetched for the profile: the base followed by the company data path. */
  function CompanyQueryUrl(env: Option<string>, h: RequestHeaders): (url: string)
    ensures |url| > |CompanyPath|
    ensures url[..|url| - |CompanyPath|] == ResolveBase(env, h)
    ensures url[|url| - |CompanyPath|..] == CompanyPath
  {
    var base := ResolveBase(env, h);
    assert (base + CompanyPath)[..|base|] == base;
    base + CompanyPath
  }

  /** An accepted configured address decides the URL alone; the headers do not matter. */
  lemma EnvOverridesHeaders(env: Option<string>, h1: RequestHeaders, h2: RequestHeaders)
    requires EnvAccepted(env)
    ensures CompanyQueryUrl(env, h1) == CompanyQueryUrl(env, h2)
  {
  }

  /** Surrounding white space in the configured address is ignored. */
  lemma EnvPaddingIgnored(pre: string, v: string, post: string, h: RequestHeaders)
    requires AllWhiteSpace(pre) && AllWhiteSpace(post)
    ensures CompanyQueryUrl(Some(pre + v + post), h) == CompanyQueryUrl(Some(v), h)
  {
    TrimIgnoresPadding(pre, v, post);
  }

  /**
   * When the accepted address ends in at most one slash, the base does not end in
   * one, so the join with the path holds exactly one slash.
   */
  lemma SingleSlashAtJoin(env: Option<string>, h: RequestHeaders)
    requires EnvAccepted(env)
    requires var t := Trim(env.value); !(t[|t| - 1] == '/' && t[|t| - 2] == '/')
    ensures var b := ResolveBase(env, h); b[|b| - 1] != '/'
  {
  }

  /** An accepted address already free of edge white space reaches the URL as it is, less one final slash. */
  lemma AcceptedAddressUrl(v: string, h: RequestHeaders)
    requires NoEdgeSpace(v) && IsHttpAddress(v)
    ensures v[|v| - 1] == '/' ==> CompanyQueryUrl(Some(v), h) == v[..|v| - 1] + CompanyPath
    ensures v[|v| - 1] != '/' ==> CompanyQueryUrl(Some(v), h) == v + CompanyPath
  {
    TrimKeeps(v);
    var b := ResolveBase(Some(v), h);
    if v[|v| - 1] == '/' {
      assert b == (b + "/")[..|v| - 1];
    }
  }

  /** A configured `https://example.com/` yields the query URL without a double slash. */
  lemma ExampleTrailingSlash(h: RequestHeaders)
    ensures CompanyQueryUrl(Some("https://example.com/"), h)
         == "https://example.com/api/open/data/company"
  {
    var v := "https://example.com/";
    assert StartsWithIgnoreCase(v, "https://") && NoEdgeSpace(v) && v[|v| - 1] == '/';
    assert v[..|v| - 1] + CompanyPath == "https://example.com/api/open/data/company";
    AcceptedAddressUrl(v, h);
  }

  /** Only one slash is removed: `https://example.com//` still joins with a double slash. */
  lemma ExampleDoubleTrailingSlash(h: RequestHeaders)
    ensures CompanyQueryUrl(Some("https://example.com//"), h)
         == "https://example.com//api/open/data/company"
  {
    var v := "https://example.com//";
    assert StartsWithIgnoreCase(v, "https://") && NoEdgeSpace(v) && v[|v| - 1] == '/';
    assert v[..|v| - 1] + CompanyPath == "https://example.com//api/open/data/company";
    AcceptedAddressUrl(v, h);
  }

  /** A configured address that is not http(s) is ignored in favour of the headers. */
  lemma ExampleMalformedEnv()
    ensures CompanyQueryUrl(Some("example.com"), RequestHeaders(None, None, Some("shop.uz")))
         == "http://shop.uz" + CompanyPath
  {
    var v := "example.com";
    var h := RequestHeaders(None, None, Some("shop.uz"));
    assert NoEdgeSpace(v);
    TrimKeeps(v);
    assert !EnvAccepted(Some(v)) by {
      assert AsciiLower(v[0]) != AsciiLower("http://"[0]);
      assert AsciiLower(v[0]) != AsciiLower("https://"[0]);
    }
    assert "http" + "://" + "shop.uz" == "http://shop.uz";
    assert ResolveBase(Some(v), h) == "http://shop.uz";
  }
}
