/** The HTTP client set-up of frontend/src/utils/axiosSetup.js: where the
    base URL comes from, and the request interceptor that turns absolute
    URLs to the local development server into relative ones. */
module AxiosSetup {
  import opened Common

  /** JavaScript truthiness of a configuration string: absent and "" are
      falsy. */
  predicate Truthy(v: Option<string>) {
    v.Some? && v.value != ""
  }

  /** The base URL: the build-time `VITE_API_URL` when it is non-empty,
      otherwise the runtime override when a window exists and the override
      is set, otherwise the empty string (relative URLs). */
  function ResolveBaseUrl(viteApiUrl: Option<string>, hasWindow: bool, runtimeOverride: Option<string>): (r: string)
    ensures Truthy(viteApiUrl) ==> r == viteApiUrl.value
    ensures !Truthy(viteApiUrl) && hasWindow && Truthy(runtimeOverride) ==> r == runtimeOverride.value
    ensures r == "" <==> !Truthy(viteApiUrl) && !(hasWindow && Truthy(runtimeOverride))
  {
    var prodApi := if Truthy(viteApiUrl) then viteApiUrl.value else "";
    var runtimeApi := if hasWindow && Truthy(runtimeOverride) then runtimeOverride.value else "";
    if prodApi != "" then prodApi else if runtimeApi != "" then runtimeApi else ""
  }

  /** The first position at or after `from` where `pat` occurs in `s`. */
  function FirstOccurrenceFrom(s: string, pat: string, from: nat): (r: Option<nat>)
    requires from <= |s| + 1
    ensures r.Some? ==> from <= r.value && OccursAt(s, pat, r.value)
    ensures r.Some? ==> forall j :: from <= j < r.value ==> !OccursAt(s, pat, j)
    ensures r.None? ==> forall j :: from <= j ==> !OccursAt(s, pat, j)
    decreases |s| + 1 - from
  {
    if from > |s| then None
    else if OccursAt(s, pat, from) then Some(from)
    else FirstOccurrenceFrom(s, pat, from + 1)
  }

  /** `s.replace(pat, rep)` with a string pattern: the first occurrence of
      `pat` is replaced, and a string without `pat` is returned as it is. */
  function ReplaceFirst(s: string, pat: string, rep: string): (r: string)
    ensures FirstOccurrenceFrom(s, pat, 0).None? ==> r == s
    ensures FirstOccurrenceFrom(s, pat, 0).Some? ==>
              var i := FirstOccurrenceFrom(s, pat, 0).value;
              i + |pat| <= |s| && r == s[..i] + rep + s[i + |pat|..]
  {
    match FirstOccurrenceFrom(s, pat, 0)
    case None => s
    case Some(i) => s[..i] + rep + s[i + |pat|..]
  }

  /** A string that starts with `pat` loses exactly that prefix when `pat`
      is replaced by nothing. */
  lemma ReplaceLeadingPrefix(s: string, pat: string)
    requires StartsWith(s, pat)
    ensures ReplaceFirst(s, pat, "") == s[|pat|..]
    ensures pat + ReplaceFirst(s, pat, "") == s
  {
    assert OccursAt(s, pat, 0);
    assert FirstOccurrenceFrom(s, pat, 0) == Some(0);
    assert s == s[..|pat|] + s[|pat|..];
  }

  const LocalhostPrefix := "http://localhost:5000"
  const LocalhostSecure := "https://localhost:5000"

  /** The interceptor's rewrite of a string URL. */
  function Rewritten(url: string): (r: string)
    ensures StartsWith(url, LocalhostPrefix) ==> LocalhostPrefix + r == url
    ensures !StartsWith(url, LocalhostPrefix) && StartsWith(url, LocalhostSecure) ==> LocalhostSecure + r == url
    ensures !StartsWith(url, LocalhostPrefix) && !StartsWith(url, LocalhostSecure) ==> r == url
  {
    if StartsWith(url, LocalhostPrefix) then
      ReplaceLeadingPrefix(url, LocalhostPrefix);
      ReplaceFirst(url, LocalhostPrefix, "")
    else if StartsWith(url, LocalhostSecure) then
      ReplaceLeadingPrefix(url, LocalhostSecure);
      ReplaceFirst(url, LocalhostSecure, "")
    else url
  }

  /** No URL starts with both prefixes: they differ in their fifth
      character, so at most one branch of the rewrite applies. */
  lemma PrefixesExclusive(url: string)
    ensures !(StartsWith(url, LocalhostPrefix) && StartsWith(url, LocalhostSecure))
  {
    if StartsWith(url, LocalhostPrefix) {
      assert url[4] == LocalhostPrefix[4] == ':';
    }
  }

  /** A rewritten URL is the original with a leading prefix cut off, so it
      is a strictly shorter suffix of it; an unchanged URL had neither
      prefix. */
  lemma RewrittenIsShorterSuffix(url: string)
    ensures Rewritten(url) != url ==> |Rewritten(url)| < |url| && url[|url| - |Rewritten(url)|..] == Rewritten(url)
    ensures Rewritten(url) == url <==> !StartsWith(url, LocalhostPrefix) && !StartsWith(url, LocalhostSecure)
  {
    var r := Rewritten(url);
    if StartsWith(url, LocalhostPrefix) {
      assert url[|LocalhostPrefix|..] == r;
    } else if StartsWith(url, LocalhostSecure) {
      assert url[|LocalhostSecure|..] == r;
    }
  }

  /** An absolute URL to the development server becomes the path it names,
      which the client then resolves against the base URL. */
  lemma DevelopmentUrlBecomesRelative(path: string)
    requires StartsWith(path, "/")
    ensures Rewritten(LocalhostPrefix + path) == path
    ensures Rewritten(LocalhostSecure + path) == path
    ensures Rewritten(path) == path
  {
    PrefixesExclusive(LocalhostSecure + path);
    assert (LocalhostPrefix + path)[..|LocalhostPrefix|] == LocalhostPrefix;
    assert (LocalhostSecure + path)[..|LocalhostSecure|] == LocalhostSecure;
    assert path[0] == '/';
  }

  /** `config.url`: absent, a string, or some other value. */
  datatype UrlValue = UrlString(s: string) | NotString

  /** `config.url && typeof config.url === 'string'`: only a non-empty
      string URL is rewritten; anything else is left as it is. */
  function RewriteUrl(url: Option<UrlValue>): (r: Option<UrlValue>)
    ensures url.Some? && url.value.UrlString? && url.value.s != "" ==> r == Some(UrlString(Rewritten(url.value.s)))
    ensures !(url.Some? && url.value.UrlString? && url.value.s != "") ==> r == url
  {
    if url.Some? && url.value.UrlString? && url.value.s != "" then Some(UrlString(Rewritten(url.value.s)))
    else url
  }

  /** The request configuration the interceptor receives. */
  class RequestConfig {
    var url: Option<UrlValue>
    var baseURL: string
    var httpMethod: string
    var headers: map<string, string>

    constructor (url: Option<UrlValue>, baseURL: string, httpMethod: string, headers: map<string, string>)
      ensures this.url == url && this.baseURL == baseURL
      ensures this.httpMethod == httpMethod && this.headers == headers
    {
      this.url := url;
      this.baseURL := baseURL;
      this.httpMethod := httpMethod;
      this.headers := headers;
    }
  }

  /** The request interceptor: rewrites `url` in place and returns the same
      object; a missing configuration is passed through. */
  method Intercept(config: RequestConfig?) returns (r: RequestConfig?)
    modifies config
    ensures r == config
    ensures config != null ==> config.url == RewriteUrl(old(config.url))
    ensures config != null ==> config.baseURL == old(config.baseURL) && config.httpMethod == old(config.httpMethod)
                               && config.headers == old(config.headers)
  {
    if config != null && config.url.Some? && config.url.value.UrlString? && config.url.value.s != "" {
      var url := config.url.value.s;
      if StartsWith(url, LocalhostPrefix) {
        config.url := Some(UrlString(ReplaceFirst(url, LocalhostPrefix, "")));
      } else if StartsWith(url, LocalhostSecure) {
        config.url := Some(UrlString(ReplaceFirst(url, LocalhostSecure, "")));
      }
    }
    return config;
  }
}
