/**
 * The onRequest hook: before routing, take the client address and port
 * from the proxy's forwarding headers, then either let the request
 * continue or answer a plain-http GET with a permanent redirect to https.
 */
module Interceptor {
  import opened Wrappers
  import opened Config

  const XForwardedFor := "x-forwarded-for"
  const XForwardedPort := "x-forwarded-port"
  const XForwardedProto := "x-forwarded-proto"
  const Host := "host"

  const HttpsScheme := "https://"

  /** Status of the permanent redirect. */
  const MovedPermanently := 301

  /** Request headers by lower-case name; a missing key is an absent header. */
  type Headers = map<string, string>

  /**
   * The client port: none (null, as for an injected request), the socket's
   * number, or the raw text copied from x-forwarded-port.
   */
  datatype Port = NoPort | SocketPort(n: nat) | ForwardedPort(text: string)

  /**
   * The parts of a request the hook reads or writes: verb is the method in
   * lower case, path is the URL path including its query string.
   */
  datatype Request = Request(
    remoteAddress: string,
    remotePort: Port,
    verb: string,
    path: string,
    headers: Headers)

  datatype Decision = Continue | Redirect(status: nat, location: string)

  /** The request as the hook leaves it, and what the server does next. */
  datatype Handled = Handled(request: Request, decision: Decision)

  /** `headers[name] || fallback` takes the header: it is present and not the empty string. */
  predicate Overrides(h: Headers, name: string)
  {
    name in h && h[name] != ""
  }

  /** The host header as string concatenation renders it; a missing one reads as "undefined". */
  function HostText(h: Headers): string
  {
    if Host in h then h[Host] else "undefined"
  }

  /** The redirect target: https, the host header verbatim, then the original path and query. */
  function Location(req: Request): (loc: string)
    ensures |loc| == |HttpsScheme| + |HostText(req.headers)| + |req.path|
    ensures loc[..|HttpsScheme|] == HttpsScheme
    ensures loc[|HttpsScheme|..|loc| - |req.path|] == HostText(req.headers)
    ensures loc[|loc| - |req.path|..] == req.path
  {
    var host := HostText(req.headers);
    var loc := HttpsScheme + host + req.path;
    assert loc[|HttpsScheme|..|loc| - |req.path|] == host;
    loc
  }

  function ForwardAddress(s: Settings, req: Request): Request
  {
    if s.remoteAddressToClientIp && Overrides(req.headers, XForwardedFor)
    then req.(remoteAddress := req.headers[XForwardedFor])
    else req
  }

  function ForwardPort(s: Settings, req: Request): Request
  {
    if s.remotePortToClientPort && Overrides(req.headers, XForwardedPort)
    then req.(remotePort := ForwardedPort(req.headers[XForwardedPort]))
    else req
  }

  /** The request arrived at the proxy over plain http. */
  predicate ProxiedOverHttp(h: Headers)
  {
    XForwardedProto in h && h[XForwardedProto] == "http"
  }

  function Decide(s: Settings, req: Request): Decision
  {
    if s.redirectHttpToHttps && req.verb == "get" && ProxiedOverHttp(req.headers)
    then Redirect(MovedPermanently, Location(req))
    else Continue
  }

  /** The hook: address, then port, then the redirect decision on the updated request. */
  function Intercept(s: Settings, req: Request): (out: Handled)
    ensures out.request.verb == req.verb
    ensures out.request.path == req.path
    ensures out.request.headers == req.headers
    ensures s.remoteAddressToClientIp && Overrides(req.headers, XForwardedFor) ==>
              out.request.remoteAddress == req.headers[XForwardedFor]
    ensures !s.remoteAddressToClientIp || !Overrides(req.headers, XForwardedFor) ==>
              out.request.remoteAddress == req.remoteAddress
    ensures s.remotePortToClientPort && Overrides(req.headers, XForwardedPort) ==>
              out.request.remotePort == ForwardedPort(req.headers[XForwardedPort])
    ensures !s.remotePortToClientPort || !Overrides(req.headers, XForwardedPort) ==>
              out.request.remotePort == req.remotePort
    ensures out.decision.Redirect? <==>
              s.redirectHttpToHttps && req.verb == "get" && ProxiedOverHttp(req.headers)
    ensures out.decision.Redirect? ==>
              out.decision.status == MovedPermanently && out.decision.location == Location(req)
  {
    var afterAddress := ForwardAddress(s, req);
    var afterPort := ForwardPort(s, afterAddress);
    Handled(afterPort, Decide(s, afterPort))
  }

  /**
   * Each flag governs only its own effect: switching one flag leaves the
   * other two outcomes of the hook as they were.
   */
  lemma FlagIndependence(s: Settings, f: Flag, b: bool, req: Request)
    ensures f != RemoteAddressToClientIp ==>
              Intercept(s.With(f, b), req).request.remoteAddress == Intercept(s, req).request.remoteAddress
    ensures f != RemotePortToClientPort ==>
              Intercept(s.With(f, b), req).request.remotePort == Intercept(s, req).request.remotePort
    ensures f != RedirectHttpToHttps ==>
              Intercept(s.With(f, b), req).decision == Intercept(s, req).decision
  {
  }

  /** The address and port updates are kept on the request even when a redirect is issued. */
  lemma RedirectKeepsForwardedIdentity(s: Settings, req: Request)
    ensures Intercept(s, req).request == Intercept(s.With(RedirectHttpToHttps, false), req).request
  {
  }

  /** With every behaviour off the hook leaves the request alone and lets it continue. */
  lemma DisabledHookIsIdentity(s: Settings, req: Request)
    requires !s.AnyEnabled()
    ensures Intercept(s, req) == Handled(req, Continue)
  {
  }

  /**
   * Registration's no-op refusal is exact: some request is altered or
   * redirected by the hook if and only if at least one behaviour is on.
   */
  lemma HookActiveIffEnabled(s: Settings)
    ensures s.AnyEnabled() <==> exists req: Request :: Intercept(s, req) != Handled(req, Continue)
  {
    if s.AnyEnabled() {
      var h := map[XForwardedFor := "10.0.0.1", XForwardedPort := "3781", XForwardedProto := "http"];
      var req := Request("127.0.0.1", NoPort, "get", "/", h);
      assert Intercept(s, req) != Handled(req, Continue);
    } else {
      forall req: Request
        ensures Intercept(s, req) == Handled(req, Continue)
      {
        DisabledHookIsIdentity(s, req);
      }
    }
  }

  /**
   * Every settings value registration accepts installs a hook that does
   * something, and only the all-off configuration is refused as a no-op.
   */
  lemma AcceptedSettingsAreActive(raw: Option<Value>)
    ensures Resolve(raw).Success? ==>
              exists req: Request :: Intercept(Resolve(raw).value, req) != Handled(req, Continue)
  {
    if Resolve(raw).Success? {
      HookActiveIffEnabled(Resolve(raw).value);
    }
  }

  /** A GET for /human?spud=ada proxied over http is sent permanently to its https address. */
  lemma RedirectExample()
    ensures Intercept(Defaults, Request("127.0.0.1", NoPort, "get", "/human?spud=ada",
              map[XForwardedProto := "http", Host := "example.com"])).decision
            == Redirect(301, "https://example.com/human?spud=ada")
  {
    var req := Request("127.0.0.1", NoPort, "get", "/human?spud=ada",
      map[XForwardedProto := "http", Host := "example.com"]);
    assert ProxiedOverHttp(req.headers);
    assert HostText(req.headers) == "example.com";
    calc {
      Location(req);
      HttpsScheme + "example.com" + "/human?spud=ada";
      "https://example.com/human?spud=ada";
    }
  }
}
