/**
 * The client's configuration (src/config/api.ts): the base URL, the timeout, the
 * default headers, the join of base URL and endpoint, and the debug summary.
 * Environment reads (`process.env`, `window.location.port`) are parameters.
 */
module Config {
  import opened Wrappers

  /** Base URL used when the environment does not provide one. */
  const DefaultBaseUrl: string := "http://localhost:3001"

  /** Request timeout in milliseconds. */
  const Timeout: nat := 10000

  /** Headers sent with every request unless the caller overrides them. */
  const DefaultHeaders: map<string, string> := map["Content-Type" := "application/json"]

  /**
   * `BASE_URL`: the environment's value when it is set and non-empty (the `||` of
   * JavaScript treats "" as absent), otherwise the local default.
   */
  function BaseUrl(env: Option<string>): (r: string)
    ensures r != ""
    ensures env.Some? && env.value != "" ==> r == env.value
    ensures env.None? || env.value == "" ==> r == DefaultBaseUrl
  {
    if env.Some? && env.value != "" then env.value else DefaultBaseUrl
  }

  predicate EndsWithSlash(s: string) {
    |s| > 0 && s[|s| - 1] == '/'
  }

  predicate StartsWithSlash(s: string) {
    |s| > 0 && s[0] == '/'
  }

  /** `s.replace(/\/$/, '')`: removes one trailing slash, if there is one. */
  function StripTrailingSlash(s: string): (r: string)
    ensures |r| == if EndsWithSlash(s) then |s| - 1 else |s|
    ensures r == s[..|r|]
  {
    if EndsWithSlash(s) then s[..|s| - 1] else s
  }

  /** `s.replace(/^\//, '')`: removes one leading slash, if there is one. */
  function StripLeadingSlash(s: string): (r: string)
    ensures |r| == if StartsWithSlash(s) then |s| - 1 else |s|
    ensures r == s[|s| - |r|..]
  {
    if StartsWithSlash(s) then s[1..] else s
  }

  /** `buildApiUrl(endpoint)` for the base URL `baseUrl`. */
  function BuildApiUrl(baseUrl: string, endpoint: string): (r: string)
    ensures |r| == |StripTrailingSlash(baseUrl)| + 1 + |StripLeadingSlash(endpoint)|
    ensures r[..|StripTrailingSlash(baseUrl)|] == StripTrailingSlash(baseUrl)
    ensures r[|StripTrailingSlash(baseUrl)|] == '/'
  {
    StripTrailingSlash(baseUrl) + "/" + StripLeadingSlash(endpoint)
  }

  /** The endpoint part of a built URL can be read back: everything after the separator. */
  lemma BuildApiUrlEndpoint(baseUrl: string, endpoint: string)
    ensures BuildApiUrl(baseUrl, endpoint)[|StripTrailingSlash(baseUrl)| + 1..]
            == StripLeadingSlash(endpoint)
  {
  }

  /** Two endpoints give the same URL exactly when they agree after the leading-slash strip. */
  lemma BuildApiUrlInjective(baseUrl: string, e1: string, e2: string)
    ensures BuildApiUrl(baseUrl, e1) == BuildApiUrl(baseUrl, e2)
            <==> StripLeadingSlash(e1) == StripLeadingSlash(e2)
  {
    if BuildApiUrl(baseUrl, e1) == BuildApiUrl(baseUrl, e2) {
      BuildApiUrlEndpoint(baseUrl, e1);
      BuildApiUrlEndpoint(baseUrl, e2);
    }
  }

  /** A single leading slash on the endpoint makes no difference. */
  lemma LeadingSlashIgnored(baseUrl: string, x: string)
    requires !StartsWithSlash(x)
    ensures BuildApiUrl(baseUrl, "/" + x) == BuildApiUrl(baseUrl, x)
  {
    assert ("/" + x)[1..] == x;
  }

  /** A single trailing slash on the base URL makes no difference. */
  lemma TrailingSlashIgnored(baseUrl: string, endpoint: string)
    requires !EndsWithSlash(baseUrl)
    ensures BuildApiUrl(baseUrl + "/", endpoint) == BuildApiUrl(baseUrl, endpoint)
  {
    assert (baseUrl + "/")[..|baseUrl|] == baseUrl;
  }

  /** Only one slash is stripped: an endpoint "//x" keeps a doubled slash after the base. */
  lemma OnlyOneLeadingSlashStripped(baseUrl: string, x: string)
    ensures BuildApiUrl(baseUrl, "//" + x) == StripTrailingSlash(baseUrl) + "//" + x
  {
    assert ("//" + x)[1..] == "/" + x;
  }

  /** Likewise on the base side: a base ending in "//" keeps one of them. */
  lemma OnlyOneTrailingSlashStripped(baseUrl: string, endpoint: string)
    ensures BuildApiUrl(baseUrl + "//", endpoint) == baseUrl + "//" + StripLeadingSlash(endpoint)
  {
    assert (baseUrl + "//")[..|baseUrl| + 1] == baseUrl + "/";
  }

  /** The result of `getApiDebugInfo()`. */
  datatype DebugInfo = DebugInfo(baseUrl: string, frontendPort: string, fullUrl: string)

  /**
   * `getApiDebugInfo()`: `env` is the environment's base URL, `windowPort` the page's
   * port when a `window` exists (None when running outside a browser).
   */
  function GetApiDebugInfo(env: Option<string>, windowPort: Option<string>): (d: DebugInfo)
    ensures d.baseUrl == BaseUrl(env)
    ensures d.frontendPort == if windowPort.Some? then windowPort.value else "unknown"
    ensures d.fullUrl == StripTrailingSlash(d.baseUrl) + "/"
  {
    DebugInfo(BaseUrl(env), windowPort.GetOr("unknown"), BuildApiUrl(BaseUrl(env), "/"))
  }

  /** Without an environment value the debug URL is the local default with one slash. */
  lemma DefaultDebugUrl(windowPort: Option<string>)
    ensures GetApiDebugInfo(None, windowPort).fullUrl == "http://localhost:3001/"
  {
    assert !EndsWithSlash(DefaultBaseUrl);
  }
}
