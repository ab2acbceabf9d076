/** The Apify API client wrapper (src/apify-client.ts): every request gets
    a User-Agent suffix, and the base URL is derived from the environment. */
module ApifyClientConfig {
  import opened JsValues
  import opened Constants

  const DefaultApiBaseUrl: string := "https://api.apify.com"

  /** A request's headers object; the interceptor writes into it in place. */
  class Headers {
    var fields: map<string, string>

    constructor(fields: map<string, string>)
      ensures this.fields == fields
    {
      this.fields := fields;
    }
  }

  /** An axios request config: its `headers` object (possibly absent) and
      every other top-level field. */
  class RequestConfig {
    var headers: Headers?
    var fields: map<string, Json>

    constructor(headers: Headers?, fields: map<string, Json>)
      ensures this.headers == headers && this.fields == fields
    {
      this.headers := headers;
      this.fields := fields;
    }
  }

  /** The headers a config carries, `{}` when it has none. */
  function HeaderFields(config: RequestConfig): map<string, string>
    reads config, config.headers
  {
    if config.headers == null then map[] else config.headers.fields
  }

  /** `headers['User-Agent'] ?? ''`. */
  function PriorUserAgent(h: map<string, string>): string {
    if "User-Agent" in h then h["User-Agent"] else ""
  }

  /** The headers after the interceptor's assignment. */
  function WithUserAgent(h: map<string, string>): (r: map<string, string>)
    ensures r.Keys == h.Keys + {"User-Agent"}
    ensures forall k :: k in h && k != "User-Agent" ==> r[k] == h[k]
    ensures |r["User-Agent"]| == |PriorUserAgent(h)| + 2 + |UserAgentOrigin|
    ensures r["User-Agent"][..|PriorUserAgent(h)|] == PriorUserAgent(h)
    ensures r["User-Agent"][|PriorUserAgent(h)|..] == "; " + UserAgentOrigin
  {
    h["User-Agent" := PriorUserAgent(h) + "; " + UserAgentOrigin]
  }

  /** `addUserAgent`: a shallow copy of the config whose headers object is
      the original one when there is one (so the caller's headers change
      too) and a new one otherwise. */
  method AddUserAgent(config: RequestConfig) returns (updated: RequestConfig)
    modifies config.headers
    ensures fresh(updated)
    ensures updated.fields == config.fields
    ensures config.headers == old(config.headers) && config.fields == old(config.fields)
    ensures updated.headers != null
    ensures updated.headers.fields == WithUserAgent(old(HeaderFields(config)))
    ensures old(config.headers) != null ==> updated.headers == config.headers
    ensures old(config.headers) == null ==> fresh(updated.headers)
  {
    updated := new RequestConfig(config.headers, config.fields);
    if updated.headers == null {
      var h := new Headers(map[]);
      updated.headers := h;
    }
    var ua := PriorUserAgent(updated.headers.fields) + "; " + UserAgentOrigin;
    updated.headers.fields := updated.headers.fields["User-Agent" := ua];
  }

  /** Running the interceptor twice appends the suffix twice: it is not idempotent. */
  lemma AddUserAgentTwice(h: map<string, string>)
    ensures WithUserAgent(WithUserAgent(h))["User-Agent"] == PriorUserAgent(h) + "; " + UserAgentOrigin + "; " + UserAgentOrigin
    ensures WithUserAgent(WithUserAgent(h)) != WithUserAgent(h)
  {
    var once := WithUserAgent(h);
    assert PriorUserAgent(once) == PriorUserAgent(h) + "; " + UserAgentOrigin;
    assert |WithUserAgent(once)["User-Agent"]| > |once["User-Agent"]|;
  }

  /** Whether `process.env[key]` is truthy: set and non-empty. */
  predicate EnvSet(env: map<string, string>, key: string) {
    key in env && env[key] != ""
  }

  /** `getApifyAPIBaseUrl`. */
  function ApiBaseUrl(env: map<string, string>): (url: string)
    ensures EnvSet(env, "APIFY_IS_AT_HOME") ==> url == DefaultApiBaseUrl
    ensures !EnvSet(env, "APIFY_IS_AT_HOME") && EnvSet(env, "APIFY_API_BASE_URL") ==> url == env["APIFY_API_BASE_URL"]
    ensures !EnvSet(env, "APIFY_API_BASE_URL") ==> url == DefaultApiBaseUrl
    ensures url != ""
  {
    if EnvSet(env, "APIFY_IS_AT_HOME") then DefaultApiBaseUrl
    else if EnvSet(env, "APIFY_API_BASE_URL") then env["APIFY_API_BASE_URL"]
    else DefaultApiBaseUrl
  }

  /** The request interceptors the client options can name. */
  datatype Interceptor = AddUserAgentInterceptor

  /** A client option: a plain value or a list of interceptors. */
  datatype OptionValue = Plain(v: Json) | Interceptors(hooks: seq<Interceptor>)

  /** The options `ApifyClient`'s constructor hands to the base client. */
  function ClientOptions(options: map<string, OptionValue>, env: map<string, string>): (r: map<string, OptionValue>)
    // whatever the caller passed, these two are replaced
    ensures "baseUrl" in r && r["baseUrl"] == Plain(JStr(ApiBaseUrl(env)))
    ensures "requestInterceptors" in r && r["requestInterceptors"] == Interceptors([AddUserAgentInterceptor])
    // everything else is passed through
    ensures forall k :: k != "baseUrl" && k != "requestInterceptors" ==>
      ((k in r <==> k in options) && (k in options ==> r[k] == options[k]))
  {
    options + map["baseUrl" := Plain(JStr(ApiBaseUrl(env))), "requestInterceptors" := Interceptors([AddUserAgentInterceptor])]
  }
}
