/**
 * Per-request configuration (bot.js:78-124): the proxy agent chosen from the proxy
 * URI's scheme, the browser-like header set with an optional bearer token, and the
 * 60 s timeout. `Math.random` is a parameter `roll` in [0, 1).
 */
module Network {
  import opened Common

  predicate HasPrefix(s: string, prefix: string) {
    |prefix| <= |s| && s[..|prefix|] == prefix
  }

  /** The two agent classes a proxy URI can select. */
  datatype AgentKind = HttpsProxyAgent | SocksProxyAgent

  /** `newAgent(proxy)` (bot.js:82-90); `None` is the `null` returned for any other scheme. */
  function NewAgent(proxy: string): (agent: Option<AgentKind>)
    ensures agent == Some(HttpsProxyAgent) <==> HasPrefix(proxy, "http://") || HasPrefix(proxy, "https://")
    ensures agent == Some(SocksProxyAgent) <==> HasPrefix(proxy, "socks4://") || HasPrefix(proxy, "socks5://")
  {
    if HasPrefix(proxy, "http://") || HasPrefix(proxy, "https://") then
      assert proxy[0] == 'h';
      assert proxy[..1] == "h";
      Some(HttpsProxyAgent)
    else if HasPrefix(proxy, "socks4://") || HasPrefix(proxy, "socks5://") then Some(SocksProxyAgent)
    else None
  }

  /** How a request leaves the process: axios' own defaults, through a proxy agent,
      or directly with axios' proxy support switched off. */
  datatype Route = Ambient | Tunnel(agent: AgentKind, proxy: string) | Direct

  datatype RequestConfig = RequestConfig(headers: map<string, string>, timeoutMs: nat, route: Route)

  const RequestTimeoutMs: nat := 60000

  const UserAgents: seq<string> := [
    "Mozilla/5.0 (Windows NT 10.0; Win64; x64) AppleWebKit/537.36 (KHTML, like Gecko) Chrome/134.0.0.0 Safari/537.36",
    "Mozilla/5.0 (Macintosh; Intel Mac OS X 10_15_7) AppleWebKit/605.1.15 (KHTML, like Gecko) Version/15.0 Safari/605.1.15",
    "Mozilla/5.0 (X11; Linux x86_64) AppleWebKit/537.36 (KHTML, like Gecko) Chrome/105.0.0.0 Safari/537.36",
    "Mozilla/5.0 (Windows NT 10.0; Win64; x64) Firefox/102.0"
  ]

  /** The fixed browser-impersonation headers sent with every request. */
  const BrowserHeaders: map<string, string> := map[
    "accept" := "application/json, text/plain, */*",
    "accept-encoding" := "gzip, deflate, br, zstd",
    "accept-language" := "en-US,en;q=0.9,id;q=0.8",
    "origin" := "https://app.psdn.ai",
    "priority" := "u=1, i",
    "referer" := "https://app.psdn.ai/",
    "sec-ch-ua" := "\"Chromium\";v=\"134\", \"Not:A-Brand\";v=\"24\", \"Google Chrome\";v=\"134\"",
    "sec-ch-ua-mobile" := "?0",
    "sec-ch-ua-platform" := "\"Windows\"",
    "sec-fetch-dest" := "empty",
    "sec-fetch-mode" := "cors",
    "sec-fetch-site" := "cross-site"
  ]

  /** `Math.floor(Math.random() * userAgents.length)` (bot.js:79). */
  function UserAgentIndex(roll: real): (k: nat)
    requires 0.0 <= roll < 1.0
    ensures k < |UserAgents|
    ensures k as real <= roll * 4.0 < k as real + 1.0
  {
    (roll * 4.0).Floor
  }

  /** `getGlobalHeaders(token)` (bot.js:92-112). */
  function GlobalHeaders(token: Option<string>, roll: real): (h: map<string, string>)
    requires 0.0 <= roll < 1.0
    ensures "authorization" in h <==> Truthy(token)
    ensures Truthy(token) ==> h["authorization"] == "Bearer " + token.value
    ensures "user-agent" in h && h["user-agent"] in UserAgents
    ensures forall key :: key in BrowserHeaders ==> key in h && h[key] == BrowserHeaders[key]
    ensures h.Keys == BrowserHeaders.Keys + {"user-agent"} + (if Truthy(token) then {"authorization"} else {})
  {
    var base := BrowserHeaders["user-agent" := UserAgents[UserAgentIndex(roll)]];
    if Truthy(token) then base["authorization" := "Bearer " + token.value] else base
  }

  /** `getAxiosConfig(proxy, token)` (bot.js:114-124). */
  function AxiosConfig(proxy: Option<string>, token: Option<string>, roll: real): (c: RequestConfig)
    requires 0.0 <= roll < 1.0
    ensures c.timeoutMs == RequestTimeoutMs
    ensures c.headers == GlobalHeaders(token, roll)
    ensures c.route.Ambient? <==> !Truthy(proxy)
    ensures c.route.Tunnel? <==> Truthy(proxy) && NewAgent(proxy.value).Some?
    ensures c.route.Tunnel? ==> c.route.proxy == proxy.value && Some(c.route.agent) == NewAgent(proxy.value)
  {
    var headers := GlobalHeaders(token, roll);
    if !Truthy(proxy) then RequestConfig(headers, RequestTimeoutMs, Ambient)
    else match NewAgent(proxy.value)
      case Some(agent) => RequestConfig(headers, RequestTimeoutMs, Tunnel(agent, proxy.value))
      case None => RequestConfig(headers, RequestTimeoutMs, Direct)
  }

  /** The configuration of the public-IP lookup (bot.js:160-161): no token, and the
      authorization header deleted. */
  function PublicIpConfig(proxy: Option<string>, roll: real): (c: RequestConfig)
    requires 0.0 <= roll < 1.0
    ensures "authorization" !in c.headers
    ensures c.route == AxiosConfig(proxy, None, roll).route
  {
    var c := AxiosConfig(proxy, None, roll);
    c.(headers := c.headers - {"authorization"})
  }

  // ---------------------------------------------------------------------------
  // Properties

  /** The agent depends only on the scheme: whatever follows it, an http(s) URI gets
      the HTTPS agent and a socks4/5 URI the SOCKS agent. Scheme matching is
      case-sensitive. */
  lemma SchemeDecidesAgent(rest: string)
    ensures NewAgent("http://" + rest) == Some(HttpsProxyAgent)
    ensures NewAgent("https://" + rest) == Some(HttpsProxyAgent)
    ensures NewAgent("socks4://" + rest) == Some(SocksProxyAgent)
    ensures NewAgent("socks5://" + rest) == Some(SocksProxyAgent)
    ensures NewAgent("HTTP://" + rest) == None
  {
    assert ("http://" + rest)[..7] == "http://";
    assert ("https://" + rest)[..8] == "https://";
    assert ("socks4://" + rest)[..9] == "socks4://";
    assert ("socks5://" + rest)[..9] == "socks5://";
    var u := "HTTP://" + rest;
    assert u[0] == 'H';
  }

  /** A proxy with an unrecognised scheme is not used at all: the agent is `null` and
      axios' proxy support is off, so the request goes out directly. */
  lemma UnknownSchemeGoesDirect(proxy: string, token: Option<string>, roll: real)
    requires 0.0 <= roll < 1.0
    requires proxy != "" && NewAgent(proxy).None?
    ensures AxiosConfig(Some(proxy), token, roll).route == Direct
  {
  }

  /** Every user agent of the set can be chosen. */
  lemma EveryUserAgentReachable(k: nat)
    requires k < |UserAgents|
    ensures UserAgentIndex(k as real / 4.0) == k
  {
    assert (k as real / 4.0) * 4.0 == k as real;
  }
}
