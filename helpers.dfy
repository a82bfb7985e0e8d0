/**
 * The test helpers: the mock web server's routing, the mock proxy's
 * authentication check and forwarding options, the search for a free port
 * and the series of test URLs. Servers, sockets and piping are I/O and are
 * not modelled; the port probe is a predicate given by the caller.
 */
module Helpers {
  import opened Wrappers
  import opened Text

  /** Where the port search starts when no port is given. */
  const DefaultStartPort: int := 3000
  /** How many ports the search tries before it gives up. */
  const PortSearchSpan: nat := 100
  /** How many test URLs are made when no count is given. */
  const DefaultUrlCount: int := 3

  /** A reply body: an HTML page given by its three texts, or plain text. */
  datatype MockBody = HtmlPage(title: string, heading: string, content: string) | PlainText(text: string)

  /** What the mock server sends: the status, the body and how long it waits first. */
  datatype MockReply = MockReply(status: nat, body: MockBody, delayMs: nat)

  const NotFound := MockReply(404, PlainText("Not Found"), 0)

  function TestPath(i: nat): string {
    "/test" + NatToString(i)
  }

  function TestPage(i: nat): MockBody {
    HtmlPage("Test Page " + NatToString(i), "Test Title " + NatToString(i), "Test content " + NatToString(i))
  }

  /** The mock server's routing on the request path. */
  function MockServerRoute(path: string): (r: MockReply)
    ensures r.status == 200 <==> path in {"/test1", "/test2", "/test3", "/slow"}
    ensures r.status != 200 ==> r == NotFound
    ensures r.delayMs != 0 <==> path == "/slow"
    ensures path == "/slow" ==> r.delayMs == 3000
  {
    if path == "/test1" then MockReply(200, TestPage(1), 0)
    else if path == "/test2" then MockReply(200, TestPage(2), 0)
    else if path == "/test3" then MockReply(200, TestPage(3), 0)
    else if path == "/error" then NotFound
    else if path == "/slow" then
      MockReply(200, HtmlPage("Slow Page", "Slow Response", "This page loads slowly"), 3000)
    else NotFound
  }

  /**
   * `/test<i>` is served (with page i) exactly for i = 1, 2, 3; every other
   * number reaches the 404 branch.
   */
  lemma TestPathRoutes(i: nat)
    ensures MockServerRoute(TestPath(i)).status == 200 <==> 1 <= i <= 3
    ensures 1 <= i <= 3 ==> MockServerRoute(TestPath(i)) == MockReply(200, TestPage(i), 0)
  {
    var p := TestPath(i);
    var d := NatToString(i);
    assert p[..5] == "/test" && p[5..] == d;
    if i < 10 {
      assert |p| == 6 && p[5] == d[0];
      assert d[0] == Digit(i);
      if i == 0 || i > 3 {
        assert p != "/test1" by { assert "/test1"[5] == '1'; }
        assert p != "/test2" by { assert "/test2"[5] == '2'; }
        assert p != "/test3" by { assert "/test3"[5] == '3'; }
      } else {
        assert ["/test1", "/test2", "/test3"][i - 1] == "/test" + [Digit(i)];
      }
    } else {
      assert |p| >= 7;
    }
  }

  /** The mock proxy's view of a request: its target, its HTTP method (`verb`) and its headers. */
  datatype ProxyRequest = ProxyRequest(url: string, verb: string, headers: map<string, string>)

  /** The options of the forwarded request; `port` is None where `parseInt` gives NaN. */
  datatype ForwardOptions = ForwardOptions(hostname: string, port: Option<nat>, path: string, verb: string,
                                           headers: map<string, string>)

  datatype ProxyDecision =
    | Challenge(status: nat, authenticate: string, body: string)
    | Forward(options: ForwardOptions)

  const AuthHeader := "proxy-authorization"
  const ProxyChallenge := Challenge(407, "Basic realm=\"proxy\"", "Proxy Authentication Required")

  /** `host?.split(":")[0] || "localhost"`. */
  function HostnameOf(host: Option<string>): (h: string)
    ensures h != [] && ':' !in h
    ensures host.None? ==> h == "localhost"
  {
    match host
    case None => "localhost"
    case Some(v) =>
      var first := Split(v, ':')[0];
      if first == "" then "localhost" else first
  }

  /** `parseInt(host?.split(":")[1] || "80")`. */
  function PortOf(host: Option<string>): (p: Option<nat>)
    ensures host.None? ==> p == Some(80)
  {
    var segment :=
      match host
      case None => "80"
      case Some(v) =>
        var parts := Split(v, ':');
        if |parts| >= 2 && parts[1] != "" then parts[1] else "80";
    ParseIntOfDefaultPort();
    ParseInt(segment)
  }

  lemma ParseIntOfDefaultPort()
    ensures ParseInt("80") == Some(80)
  {
    assert "80" == NatToString(80) + [] by {
      assert Digit(8) == '8' && Digit(0) == '0';
    }
    ParseIntOfNatToString(80, []);
  }

  /** A host header `<name>:<port>` is split back into the name and the port. */
  lemma HostHeaderRoundTrip(name: string, port: nat)
    requires name != [] && ':' !in name
    ensures HostnameOf(Some(name + ":" + NatToString(port))) == name
    ensures PortOf(Some(name + ":" + NatToString(port))) == Some(port)
  {
    var digits := NatToString(port);
    assert forall k :: 0 <= k < |digits| ==> digits[k] != ':';
    SplitAtSeparator(name, ':', digits);
    SplitWithoutSeparator(digits, ':');
    assert name + ":" + digits == name + [':'] + digits;
    ParseIntOfNatToString(port, []);
    assert digits + [] == digits;
  }

  /** A host header without a port forwards to port 80. */
  lemma HostHeaderWithoutPort(name: string)
    requires name != [] && ':' !in name
    ensures HostnameOf(Some(name)) == name
    ensures PortOf(Some(name)) == Some(80)
  {
    SplitWithoutSeparator(name, ':');
    ParseIntOfDefaultPort();
  }

  /**
   * The mock proxy: a challenge unless a proxy-authorization header
   * mentioning "Basic" is present, otherwise the request is forwarded to the
   * host its host header names, without the proxy-authorization header.
   */
  function MockProxyDecision(req: ProxyRequest): (d: ProxyDecision)
    ensures d.Challenge? <==> (AuthHeader !in req.headers || !Contains(req.headers[AuthHeader], "Basic"))
    ensures d.Challenge? ==> d == ProxyChallenge
    ensures d.Forward? ==> AuthHeader !in d.options.headers
    ensures d.Forward? ==> forall k :: k in req.headers && k != AuthHeader ==>
                                      k in d.options.headers && d.options.headers[k] == req.headers[k]
    ensures d.Forward? ==> forall k :: k in d.options.headers ==> k in req.headers
    ensures d.Forward? ==> d.options.path == req.url && d.options.verb == req.verb
    ensures d.Forward? ==> var host := if "host" in req.headers then Some(req.headers["host"]) else None;
                           d.options.hostname == HostnameOf(host) && d.options.port == PortOf(host)
  {
    var auth := if AuthHeader in req.headers then Some(req.headers[AuthHeader]) else None;
    if auth.None? || auth.value == "" || !Contains(auth.value, "Basic") then
      ProxyChallenge
    else
      var host := if "host" in req.headers then Some(req.headers["host"]) else None;
      Forward(ForwardOptions(HostnameOf(host), PortOf(host), req.url, req.verb, req.headers - {AuthHeader}))
  }

  /**
   * `findAvailablePort`: tries `startPort`, `startPort + 1`, ... below
   * `startPort + 100` and returns the first port the probe reports free.
   */
  method FindAvailablePort(isPortAvailable: int -> bool, startPort: int := DefaultStartPort) returns (r: Result<int, string>)
    ensures r.Success? ==> startPort <= r.value < startPort + PortSearchSpan && isPortAvailable(r.value)
    ensures r.Success? ==> forall p :: startPort <= p < r.value ==> !isPortAvailable(p)
    ensures r.Failure? <==> forall p :: startPort <= p < startPort + PortSearchSpan ==> !isPortAvailable(p)
    ensures r.Failure? ==> r.error == "No available port found"
  {
    var port := startPort;
    while port < startPort + PortSearchSpan
      invariant startPort <= port <= startPort + PortSearchSpan
      invariant forall p :: startPort <= p < port ==> !isPortAvailable(p)
      decreases startPort + PortSearchSpan - port
    {
      if isPortAvailable(port) {
        return Success(port);
      }
      port := port + 1;
    }
    return Failure("No available port found");
  }

  function TestUrl(basePort: int, i: nat): string {
    "http://localhost:" + IntToString(basePort) + TestPath(i)
  }

  /** `createTestUrls`: the URLs of `/test1` ... `/test<count>` on the given port. */
  method CreateTestUrls(basePort: int, count: int := DefaultUrlCount) returns (urls: seq<string>)
    ensures count < 1 ==> urls == []
    ensures count >= 1 ==> |urls| == count
    ensures forall i :: 1 <= i <= count ==> urls[i - 1] == TestUrl(basePort, i)
  {
    urls := [];
    var i := 1;
    while i <= count
      invariant 1 <= i
      invariant count >= 1 ==> i <= count + 1
      invariant count < 1 ==> i == 1
      invariant |urls| == i - 1
      invariant forall j :: 1 <= j < i ==> urls[j - 1] == TestUrl(basePort, j)
      decreases count - i
    {
      urls := urls + [TestUrl(basePort, i)];
      i := i + 1;
    }
  }

  lemma {:induction false} PrefixCancel(a: string, b: string, c: string)
    requires a + b == a + c
    ensures b == c
  {
    assert (a + b)[|a|..] == b;
    assert (a + c)[|a|..] == c;
  }

  /** Different numbers give different URLs, so the list holds no URL twice. */
  lemma TestUrlInjective(basePort: int, i: nat, j: nat)
    ensures TestUrl(basePort, i) == TestUrl(basePort, j) <==> i == j
  {
    if TestUrl(basePort, i) == TestUrl(basePort, j) {
      var base := "http://localhost:" + IntToString(basePort) + "/test";
      assert TestUrl(basePort, i) == base + NatToString(i);
      assert TestUrl(basePort, j) == base + NatToString(j);
      PrefixCancel(base, NatToString(i), NatToString(j));
      NatToStringInjective(i, j);
    }
  }
}
