/**
 * Proxy support in the scraping tests: the proxy configuration and its
 * validator, the Puppeteer launch arguments, the Proxy-Authorization header
 * and the single and batch scrapes through a proxy. `fetch` and base64 are
 * foreign and are parameters.
 */
module ProxySupport {
  import opened Wrappers
  import opened Text
  import opened Fetch
  import opened Lists
  import opened Replies
  import Helpers
  import BatchScraping

  /**
   * A proxy configuration as the tests pass it: every field may be absent
   * (`undefined`), and the port is a number.
   */
  datatype ProxyConfig = ProxyConfig(host: Option<string>, port: Option<int>, protocol: Option<string>,
                                     username: Option<string>, password: Option<string>)

  const HostRequired := "プロキシホストが必要です"
  const PortInvalid := "プロキシポートが無効です"
  const ProtocolUnsupported := "サポートされていないプロキシプロトコルです"
  const SupportedProtocols := ["http", "https", "socks4", "socks5"]

  const MaxPort := 65535

  predicate PortInRange(port: Option<int>) {
    port.Some? && 1 <= port.value <= MaxPort
  }

  /** An absent (or empty) protocol is accepted; a given one must be supported. */
  predicate ProtocolAccepted(protocol: Option<string>) {
    !Truthy(protocol) || protocol.value in SupportedProtocols
  }

  /**
   * `validateProxyConfig`: the message of the first failing check, host
   * before port before protocol, or None (`null`) when all pass.
   */
  function ValidateProxyConfig(proxy: ProxyConfig): (r: Option<string>)
    ensures r.None? <==> Truthy(proxy.host) && PortInRange(proxy.port) && ProtocolAccepted(proxy.protocol)
    ensures !Truthy(proxy.host) ==> r == Some(HostRequired)
    ensures Truthy(proxy.host) && !PortInRange(proxy.port) ==> r == Some(PortInvalid)
    ensures Truthy(proxy.host) && PortInRange(proxy.port) && !ProtocolAccepted(proxy.protocol)
            ==> r == Some(ProtocolUnsupported)
  {
    if !Truthy(proxy.host) then Some(HostRequired)
    else if !TruthyNumber(proxy.port) || proxy.port.value < 1 || proxy.port.value > MaxPort then Some(PortInvalid)
    else if Truthy(proxy.protocol) && proxy.protocol.value !in SupportedProtocols then Some(ProtocolUnsupported)
    else None
  }

  /** The validator's test cases. */
  lemma ValidateProxyConfigExamples()
    ensures ValidateProxyConfig(ProxyConfig(None, None, None, None, None)) == Some(HostRequired)
    ensures ValidateProxyConfig(ProxyConfig(Some("localhost"), None, None, None, None)) == Some(PortInvalid)
    ensures ValidateProxyConfig(ProxyConfig(Some("localhost"), Some(99999), None, None, None)) == Some(PortInvalid)
    ensures ValidateProxyConfig(ProxyConfig(Some("localhost"), Some(8080), Some("invalid"), None, None))
            == Some(ProtocolUnsupported)
    ensures ValidateProxyConfig(ProxyConfig(Some("localhost"), Some(8080), Some("http"), None, None)).None?
  {
    assert "invalid" !in SupportedProtocols by {
      assert "invalid"[0] == 'i';
      assert "http"[0] == 'h' && "https"[0] == 'h' && "socks4"[0] == 's' && "socks5"[0] == 's';
    }
  }

  /** `--proxy-server=${protocol}://${host}:${port}`; an absent field renders as "undefined". */
  function ProxyServerArg(proxy: ProxyConfig): (arg: string)
    ensures |arg| > |"--proxy-server="| && arg[..|"--proxy-server="|] == "--proxy-server="
  {
    "--proxy-server=" + RenderString(proxy.protocol) + "://" + RenderString(proxy.host) + ":" + RenderInt(proxy.port)
  }

  predicate HasCredentials(proxy: ProxyConfig) {
    Truthy(proxy.username) && Truthy(proxy.password)
  }

  /** `createPuppeteerProxyArgs`: the proxy-server flag, then "--proxy-auth" when both credentials are given. */
  method CreatePuppeteerProxyArgs(proxy: ProxyConfig) returns (args: seq<string>)
    ensures 1 <= |args| <= 2
    ensures args[0] == ProxyServerArg(proxy)
    ensures |args| == 2 <==> HasCredentials(proxy)
    ensures |args| == 2 ==> args[1] == "--proxy-auth"
    ensures "--proxy-auth" in args <==> HasCredentials(proxy)
  {
    args := [ProxyServerArg(proxy)];
    assert args[0][..2] == "--" && "--proxy-auth"[..2] == "--";
    assert args[0][8] == 's';
    assert "--proxy-auth"[8] == 'a';
    if Truthy(proxy.username) && Truthy(proxy.password) {
      args := args + ["--proxy-auth"];
    }
  }

  /**
   * The proxy-server flag encodes the protocol, the host and the port: after
   * the flag name, splitting on ':' gives them back.
   */
  lemma ProxyServerArgParts(protocol: string, host: string, port: nat, username: Option<string>,
                            password: Option<string>)
    requires ':' !in protocol && ':' !in host
    ensures var arg := ProxyServerArg(ProxyConfig(Some(host), Some(port), Some(protocol), username, password));
            |arg| > 15 && arg[..15] == "--proxy-server="
            && Split(arg[15..], ':') == [protocol, "//" + host, NatToString(port)]
  {
    var digits := NatToString(port);
    var arg := ProxyServerArg(ProxyConfig(Some(host), Some(port), Some(protocol), username, password));
    assert arg == "--proxy-server=" + (protocol + [':'] + ("//" + host + [':'] + digits));
    assert arg[15..] == protocol + [':'] + ("//" + host + [':'] + digits);
    assert forall k :: 0 <= k < |digits| ==> digits[k] != ':';
    assert ':' !in "//" + host by {
      assert forall k :: 0 <= k < |"//" + host| ==> ("//" + host)[k] == if k < 2 then '/' else host[k - 2];
    }
    SplitAtSeparator(protocol, ':', "//" + host + [':'] + digits);
    SplitAtSeparator("//" + host, ':', digits);
    SplitWithoutSeparator(digits, ':');
  }

  /** The test's configuration yields the flag it expects. */
  lemma ProxyServerArgExample(username: Option<string>, password: Option<string>)
    ensures ProxyServerArg(ProxyConfig(Some("proxy.example.com"), Some(8080), Some("http"), username, password))
            == "--proxy-server=" + "http" + "://" + "proxy.example.com" + ":" + "8080"
  {
    assert Digit(8) == '8' && Digit(0) == '0';
    assert NatToString(8) == "8";
    assert NatToString(80) == "80";
    assert NatToString(808) == "808";
    assert NatToString(8080) == "8080";
  }

  /**
   * The validator accepts a configuration without a protocol, yet the
   * flag built from it names the protocol "undefined".
   */
  lemma AcceptedWithoutProtocol(host: string, port: int)
    requires host != "" && 1 <= port <= MaxPort
    ensures var proxy := ProxyConfig(Some(host), Some(port), None, None, None);
            ValidateProxyConfig(proxy).None?
            && ProxyServerArg(proxy)[..27] == "--proxy-server=" + "undefined" + "://"
  {
  }

  /** The options handed to `fetch`: the HTTP method (when set), the headers and the proxy URL (when set). */
  datatype FetchOptions = FetchOptions(verb: Option<string>, headers: map<string, string>, proxy: Option<string>)

  const ProxyAuthorization := "Proxy-Authorization"

  /** `Basic ${base64(`${username}:${password}`)}`. */
  function BasicAuthorization(base64: string -> string, username: string, password: string): (v: string)
    ensures |v| >= 6 && v[..6] == "Basic "
  {
    "Basic " + base64(username + ":" + password)
  }

  /**
   * Credentials without ':' in the user name are determined by the
   * `user:password` text that is encoded.
   */
  lemma CredentialsDetermineUser(u1: string, p1: string, u2: string, p2: string)
    requires ':' !in u1 && ':' !in u2
    ensures u1 + ":" + p1 == u2 + ":" + p2 <==> u1 == u2 && p1 == p2
  {
    if u1 + ":" + p1 == u2 + ":" + p2 {
      assert u1 + ":" + p1 == u1 + [':'] + p1;
      assert u2 + ":" + p2 == u2 + [':'] + p2;
      SplitAtSeparator(u1, ':', p1);
      SplitAtSeparator(u2, ':', p2);
      assert Split(u1 + [':'] + p1, ':')[0] == u1;
      assert Split(u2 + [':'] + p2, ':')[0] == u2;
      Helpers.PrefixCancel(u1 + ":", p1, p2);
    }
  }

  /** The headers both scrapes send: Proxy-Authorization exactly when there are credentials. */
  function AuthorizationHeaders(proxy: Option<ProxyConfig>, base64: string -> string): (h: map<string, string>)
    ensures ProxyAuthorization in h <==> proxy.Some? && HasCredentials(proxy.value)
    ensures forall k :: k in h ==> k == ProxyAuthorization
    ensures ProxyAuthorization in h ==>
              h[ProxyAuthorization] == BasicAuthorization(base64, proxy.value.username.value, proxy.value.password.value)
  {
    if proxy.Some? && HasCredentials(proxy.value) then
      map[ProxyAuthorization := BasicAuthorization(base64, proxy.value.username.value, proxy.value.password.value)]
    else
      map[]
  }

  /** `http://${host}:${port}`, the proxy URL of the single scrape. */
  function ProxyUrl(proxy: ProxyConfig): string {
    "http://" + ProxyLabel(Some(proxy))
  }

  /** The options of the single scrape (`mockScrapeWithProxy`), built by updating an initial `{method: "GET", headers: {}}`. */
  method BuildScrapeOptions(proxy: Option<ProxyConfig>, base64: string -> string) returns (opts: FetchOptions)
    ensures opts.verb == Some("GET")
    ensures opts.headers == AuthorizationHeaders(proxy, base64)
    ensures opts.proxy.Some? <==> proxy.Some?
    ensures proxy.Some? ==> opts.proxy == Some(ProxyUrl(proxy.value))
  {
    opts := FetchOptions(Some("GET"), map[], None);
    if proxy.Some? {
      var p := proxy.value;
      if Truthy(p.username) && Truthy(p.password) {
        var encoded := base64(p.username.value + ":" + p.password.value);
        opts := opts.(headers := opts.headers[ProxyAuthorization := "Basic " + encoded]);
      }
      var host, port := RenderString(p.host), RenderInt(p.port);
      opts := opts.(proxy := Some("http://" + host + ":" + port));
      assert "http://" + host + ":" + port == "http://" + (host + ":" + port);
    }
  }

  /** The options of each request of the batch scrape, built by updating an initial `{headers: {}}`. */
  method BuildBatchOptions(proxy: Option<ProxyConfig>, base64: string -> string) returns (opts: FetchOptions)
    ensures opts == FetchOptions(None, AuthorizationHeaders(proxy, base64), None)
  {
    opts := FetchOptions(None, map[], None);
    if proxy.Some? && Truthy(proxy.value.username) && Truthy(proxy.value.password) {
      var encoded := base64(proxy.value.username.value + ":" + proxy.value.password.value);
      opts := opts.(headers := opts.headers[ProxyAuthorization := "Basic " + encoded]);
    }
  }

  /** The one-URL scrape through a proxy: any response counts as success, a thrown error does not. */
  method MockScrapeWithProxy(url: string, proxy: Option<ProxyConfig>, base64: string -> string,
                             fetch: (string, FetchOptions) -> FetchOutcome) returns (reply: ToolReply)
    ensures var outcome := fetch(url, FetchOptions(Some("GET"), AuthorizationHeaders(proxy, base64),
                                                   if proxy.Some? then Some(ProxyUrl(proxy.value)) else None));
            && (reply.isError <==> outcome.Threw?)
            && (outcome.Responded? ==> reply.text == "プロキシ経由でスクレイピング成功: " + NatToString(outcome.response.status))
            && (outcome.Threw? ==> reply.text == "プロキシエラー: " + outcome.message)
  {
    var opts := BuildScrapeOptions(proxy, base64);
    var outcome := fetch(url, opts);
    match outcome
    case Responded(response) =>
      reply := ToolReply("プロキシ経由でスクレイピング成功: " + NatToString(response.status), false);
    case Threw(message) =>
      reply := ToolReply("プロキシエラー: " + message, true);
  }

  /** `${host}:${port}` for a proxy, "direct" without one. */
  function ProxyLabel(proxy: Option<ProxyConfig>): (tag: string)
    ensures proxy.None? ==> tag == "direct"
    ensures proxy.Some? ==> ':' in tag
  {
    match proxy
    case Some(p) =>
      var host := RenderString(p.host);
      assert (host + ":" + RenderInt(p.port))[|host|] == ':';
      host + ":" + RenderInt(p.port)
    case None => "direct"
  }

  /** A proxy's label, read as a host header, gives back its host and port. */
  lemma ProxyLabelRoundTrip(proxy: ProxyConfig)
    requires Truthy(proxy.host) && ':' !in proxy.host.value
    requires proxy.port.Some? && proxy.port.value >= 0
    ensures Helpers.HostnameOf(Some(ProxyLabel(Some(proxy)))) == proxy.host.value
    ensures Helpers.PortOf(Some(ProxyLabel(Some(proxy)))) == Some(proxy.port.value as nat)
  {
    Helpers.HostHeaderRoundTrip(proxy.host.value, proxy.port.value);
  }

  /** A result of the batch through a proxy: the status result and the proxy label. */
  datatype ProxyBatchItem = ProxyBatchItem(status: BatchScraping.StatusItem, proxy: string)

  /** The result recorded for one URL of the batch. */
  function ProxyItem(url: string, outcome: FetchOutcome, tag: string): ProxyBatchItem {
    ProxyBatchItem(BatchScraping.StatusItemOf(url, outcome), tag)
  }

  function Succeeded(item: ProxyBatchItem): bool {
    item.status.success
  }

  function ProxyBatchSummary(successCount: nat): string {
    "プロキシ経由一括スクレイピング完了: 成功 " + NatToString(successCount) + "件"
  }

  /**
   * `mockBatchScrapeWithProxy`: one request per URL, in order, each labelled
   * with the proxy; the reply counts the successes.
   */
  method MockBatchScrapeWithProxy(urls: seq<string>, proxy: Option<ProxyConfig>, base64: string -> string,
                                  fetch: (string, FetchOptions) -> FetchOutcome)
    returns (reply: ToolReply, results: seq<ProxyBatchItem>)
    ensures |results| == |urls|
    ensures forall i :: 0 <= i < |urls| ==>
              results[i] == ProxyItem(urls[i], fetch(urls[i], FetchOptions(None, AuthorizationHeaders(proxy, base64), None)),
                                      ProxyLabel(proxy))
    ensures forall i :: 0 <= i < |urls| ==> results[i].status.url == urls[i] && results[i].proxy == ProxyLabel(proxy)
    ensures !reply.isError && reply.text == ProxyBatchSummary(Count(results, Succeeded))
    ensures (forall i :: 0 <= i < |urls| ==>
               fetch(urls[i], FetchOptions(None, AuthorizationHeaders(proxy, base64), None)).Succeeded())
            ==> reply.text == ProxyBatchSummary(|urls|)
  {
    results := [];
    var i := 0;
    while i < |urls|
      invariant 0 <= i <= |urls|
      invariant |results| == i
      invariant forall j :: 0 <= j < i ==>
                  results[j] == ProxyItem(urls[j], fetch(urls[j], FetchOptions(None, AuthorizationHeaders(proxy, base64), None)),
                                          ProxyLabel(proxy))
    {
      var opts := BuildBatchOptions(proxy, base64);
      var outcome := fetch(urls[i], opts);
      results := results + [ProxyItem(urls[i], outcome, ProxyLabel(proxy))];
      i := i + 1;
    }
    var successCount := Count(results, Succeeded);
    reply := ToolReply(ProxyBatchSummary(successCount), false);
    if forall j :: 0 <= j < |urls| ==>
         fetch(urls[j], FetchOptions(None, AuthorizationHeaders(proxy, base64), None)).Succeeded() {
      CountAll(results, Succeeded);
    }
  }
}
