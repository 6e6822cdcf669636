/** The request middleware of the server: which address counts as the client's, which
    browser origins may call the API, and the flag put on requests whose URL, User-Agent
    or Referer looks like an attack. A request is the record of the headers these read
    and of the fields they write; a middleware is a function from the request it receives
    to the request it passes on with `next()`, which every one of them calls. */
module Security {
  import opened Common
  import opened Text
  import opened Patterns

  /** What `detectSuspiciousActivity` writes on a flagged request. */
  datatype SuspiciousActivity = SuspiciousActivity(
    kind: string, url: string, userAgent: string, referer: string, detected: bool)

  datatype Request = Request(
    originalUrl: string,
    forwardedFor: Option<string>,
    realIp: Option<string>,
    connectionRemote: Option<string>,
    socketRemote: Option<string>,
    userAgent: Option<string>,
    referer: Option<string>,
    clientIP: Option<string>,
    suspiciousActivity: Option<SuspiciousActivity>)

  // ---------------------------------------------------------------- client address

  /** The address `extractClientIP` settles on: the first hop of X-Forwarded-For,
      trimmed; else X-Real-IP; else the connection's, then the socket's remote address;
      else 'unknown'. Absent and empty values are skipped alike. */
  function ClientIp(forwardedFor: Option<string>, realIp: Option<string>,
                    connectionRemote: Option<string>, socketRemote: Option<string>): (ip: string)
    ensures Present(forwardedFor) ==> ip == Trim(Split(forwardedFor.value, ',')[0])
    ensures Present(forwardedFor) ==> ',' !in ip && Unpadded(ip)
    ensures !Present(forwardedFor) && Present(realIp) ==> ip == realIp.value
    ensures !Present(forwardedFor) && !Present(realIp) && Present(connectionRemote) ==> ip == connectionRemote.value
    ensures !Present(forwardedFor) && !Present(realIp) && !Present(connectionRemote) && Present(socketRemote) ==>
      ip == socketRemote.value
    ensures !Present(forwardedFor) && !Present(realIp) && !Present(connectionRemote) && !Present(socketRemote) ==>
      ip == "unknown"
  {
    if Present(forwardedFor) then Trim(TakeUntil(forwardedFor.value, ','))
    else
      var remote := if Present(connectionRemote) then connectionRemote else socketRemote;
      if Present(realIp) then realIp.value
      else if Present(remote) then remote.value
      else "unknown"
  }

  /** A proxy chain "client, proxy1, proxy2" yields the client's entry without the spaces
      around it. */
  lemma FirstHopOfChain(hop: string, rest: string, realIp: Option<string>,
                        connectionRemote: Option<string>, socketRemote: Option<string>)
    requires ',' !in hop
    ensures ClientIp(Some(hop + "," + rest), realIp, connectionRemote, socketRemote) == Trim(hop)
  {
    TakeUntilStopsAtSeparator(hop, ',', rest);
    assert hop + "," + rest == hop + [','] + rest;
  }

  /** A header naming a single address yields that address without the spaces around it. */
  lemma SingleHop(header: string, realIp: Option<string>, connectionRemote: Option<string>, socketRemote: Option<string>)
    requires header != [] && ',' !in header
    ensures ClientIp(Some(header), realIp, connectionRemote, socketRemote) == Trim(header)
  {
    TakeUntilWithoutSeparator(header, ',');
  }

  /** `extractClientIP`: sets `clientIP` and changes nothing else. */
  function ExtractClientIP(req: Request): (r: Request)
    ensures r.clientIP == Some(ClientIp(req.forwardedFor, req.realIp, req.connectionRemote, req.socketRemote))
    ensures r.(clientIP := req.clientIP) == req
  {
    req.(clientIP := Some(ClientIp(req.forwardedFor, req.realIp, req.connectionRemote, req.socketRemote)))
  }

  // ---------------------------------------------------------------- CORS

  const AllowedOrigins: seq<string> :=
    ["http://localhost:5173", "http://localhost:3000", "http://127.0.0.1:5173", "http://127.0.0.1:3000"]

  /** `corsOptions.origin`: the flag passed to `callback(null, flag)`; the error argument
      is always null, so no origin is ever answered with an error. */
  function CorsOrigin(origin: Option<string>): (allowed: bool)
    ensures allowed <==> !Present(origin) || origin.value in AllowedOrigins
  {
    if !Present(origin) then true
    else origin.value in AllowedOrigins
  }

  /** An origin on neither development host, over any scheme other than plain http, is
      refused. */
  lemma CorsRefusesOtherHosts(origin: string)
    requires !StartsWith(origin, "http://localhost:") && !StartsWith(origin, "http://127.0.0.1:")
    requires origin != []
    ensures !CorsOrigin(Some(origin))
  {
  }

  /** On a development host, every port other than 5173 and 3000 is refused. */
  lemma CorsRefusesOtherPorts(host: string, port: string)
    requires host == "localhost" || host == "127.0.0.1"
    requires port != "5173" && port != "3000"
    ensures !CorsOrigin(Some("http://" + host + ":" + port))
  {
    var origin := "http://" + host + ":" + port;
    var prefix := "http://" + host + ":";
    assert origin[|prefix|..] == port;
  }

  // ---------------------------------------------------------------- suspicious requests

  /** Some request pattern matches the URL, the User-Agent or the Referer. */
  predicate LooksSuspicious(url: string, userAgent: string, referer: string) {
    exists k | 0 <= k < |RequestPatterns| ::
      Matches(RequestPatterns[k], url) || Matches(RequestPatterns[k], userAgent) || Matches(RequestPatterns[k], referer)
  }

  /** `detectSuspiciousActivity`: a missing User-Agent or Referer is inspected as ''; a
      suspicious request gets `suspiciousActivity` and nothing else changes; any other
      request passes on unchanged. */
  function DetectSuspiciousActivity(req: Request): (r: Request)
    ensures r.(suspiciousActivity := req.suspiciousActivity) == req
    ensures var ua := OrElse(req.userAgent, ""); var referer := OrElse(req.referer, "");
      if LooksSuspicious(req.originalUrl, ua, referer) then
        r.suspiciousActivity == Some(SuspiciousActivity("Suspicious Request Pattern", req.originalUrl, ua, referer, true))
      else r == req
  {
    var ua := OrElse(req.userAgent, "");
    var referer := OrElse(req.referer, "");
    if LooksSuspicious(req.originalUrl, ua, referer) then
      req.(suspiciousActivity := Some(SuspiciousActivity("Suspicious Request Pattern", req.originalUrl, ua, referer, true)))
    else req
  }

  /** A request whose URL climbs directories ("../") is flagged. */
  lemma TraversalUrlIsFlagged(req: Request, before: string, after: string)
    requires req.originalUrl == before + "../" + after
    ensures DetectSuspiciousActivity(req).suspiciousActivity.Some?
  {
    var t := Lower(req.originalUrl);
    LowerConcat(before + "../", after);
    LowerConcat(before, "../");
    assert Lower("../") == "../";
    assert t[|before|..] == "../" + Lower(after);
    assert DotDotAt(t[|before|..], ".");
    assert Matches(RequestPatterns[0], req.originalUrl);
  }

  /** An absent and an empty User-Agent or Referer are inspected alike. */
  lemma MissingHeadersReadAsEmpty(req: Request)
    ensures DetectSuspiciousActivity(req.(userAgent := None, referer := None))
      == DetectSuspiciousActivity(req.(userAgent := Some(""), referer := Some(""))).(userAgent := None, referer := None)
  {
  }
}
