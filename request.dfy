/** Request parameters and the decisions `fetchObservable` makes before and
    after the network exchange: the method defaults to GET, the method name
    picks the OkHttp request kind ignoring case, a proxy is configured only
    for a positive port, and a response is classified by its status code.
    The exchange itself is a parameter: what the server (or the transport)
    answered to the request that was sent. */
module RequestRules {
  import opened Wrappers
  import Text
  import ProxyRouting
  import PsiphonStates

  /** Connect, write and read timeouts of the OkHttp client, in seconds. */
  const TimeoutSeconds: nat := 30

  /** `ReqParams`; `method` and `uri` are null until their setters run. */
  datatype ReqParams = ReqParams(methodName: Option<string>, uri: Option<string>, body: Option<string>, httpProxyPort: int)

  /** `setMethod`: a null method means GET; any other is kept as given. */
  function DefaultMethod(m: Option<string>): (r: string)
    ensures m.None? ==> r == "GET"
    ensures m.Some? ==> r == m.value
  {
    m.GetOr("GET")
  }

  /** `ReqParams.Builder`: each setter overwrites one field; `build` copies
      the fields into a `ReqParams`. */
  class Builder {
    var methodName: Option<string>
    var uri: Option<string>
    var body: Option<string>
    var httpProxyPort: int

    constructor ()
      ensures methodName == None && uri == None && body == None && httpProxyPort == 0
    {
      methodName, uri, body, httpProxyPort := None, None, None, 0;
    }

    method SetMethod(m: Option<string>)
      modifies this`methodName
      ensures methodName == Some(DefaultMethod(m))
    {
      if m.None? {
        methodName := Some("GET");
      } else {
        methodName := m;
      }
    }

    method SetUri(u: string)
      modifies this`uri
      ensures uri == Some(u)
    {
      uri := Some(u);
    }

    method SetBody(b: Option<string>)
      modifies this`body
      ensures body == b
    {
      body := b;
    }

    method SetHttpProxyPort(port: int)
      modifies this`httpProxyPort
      ensures httpProxyPort == port
    {
      httpProxyPort := port;
    }

    method Build() returns (p: ReqParams)
      ensures p.methodName == methodName && p.uri == uri && p.body == body
      ensures p.httpProxyPort == httpProxyPort
    {
      p := ReqParams(methodName, uri, body, httpProxyPort);
    }
  }

  /** What `Request.Builder` is told: `get()`, `post(body)`, `put` with an
      empty body, `head()`, or nothing, which leaves OkHttp's default. */
  datatype RequestKind = Get | Post(content: Option<string>) | Put(putContent: seq<bv8>) | Head | BuilderDefault

  datatype Request = Request(url: string, kind: RequestKind)

  /** The `equalsIgnoreCase` chain of `fetchObservable`. */
  function Dispatch(name: string, body: Option<string>): (k: RequestKind)
    ensures k.Get? <==> Text.LowerCased(name) == "get"
    ensures k.Post? <==> Text.LowerCased(name) == "post"
    ensures k.Put? <==> Text.LowerCased(name) == "put"
    ensures k.Head? <==> Text.LowerCased(name) == "head"
    ensures k.Post? ==> k.content == body
    ensures k.Put? ==> k.putContent == []
  {
    Text.EqualsIgnoreCaseIffLowerCasedEqual(name, "GET");
    Text.EqualsIgnoreCaseIffLowerCasedEqual(name, "POST");
    Text.EqualsIgnoreCaseIffLowerCasedEqual(name, "PUT");
    Text.EqualsIgnoreCaseIffLowerCasedEqual(name, "HEAD");
    assert Text.LowerCased("GET") == "get";
    assert Text.LowerCased("POST") == "post";
    assert Text.LowerCased("PUT") == "put";
    assert Text.LowerCased("HEAD") == "head";
    if Text.EqualsIgnoreCase(name, "GET") then Get
    else if Text.EqualsIgnoreCase(name, "POST") then Post(body)
    else if Text.EqualsIgnoreCase(name, "PUT") then Put([])
    else if Text.EqualsIgnoreCase(name, "HEAD") then Head
    else BuilderDefault
  }

  /** Two method names that match ignoring case build the same request. */
  lemma DispatchIgnoresCase(m1: string, m2: string, body: Option<string>)
    requires Text.EqualsIgnoreCase(m1, m2)
    ensures Dispatch(m1, body) == Dispatch(m2, body)
  {
    Text.EqualsIgnoreCaseIffLowerCasedEqual(m1, m2);
  }

  /** The proxy configured on the OkHttp client: an HTTP proxy on localhost
      only for a positive port; otherwise the client's default is left. */
  function ClientProxy(port: int): (r: Option<ProxyRouting.Proxy>)
    ensures r.Some? <==> port > 0
    ensures r.Some? ==> r.value == ProxyRouting.HttpProxy("localhost", port)
  {
    if port > 0 then Some(ProxyRouting.HttpProxy("localhost", port)) else None
  }

  datatype Response = Response(code: int, body: Option<string>)

  /** What `call.execute()` produced: a response, or an `IOException`. */
  datatype Exchange = Responded(response: Response) | TransportFailure

  /** The errors `fetchObservable` reports: a non-2xx status, an
      `IOException` wrapped in a `RuntimeException`, and the null dereference
      of a missing method or URI. */
  datatype RequestError = BadResponseCode(code: int) | IoError | NullReference

  /** OkHttp's `Response.isSuccessful()`: a status in the 2xx class. */
  predicate IsSuccessful(code: int): (r: bool)
    ensures r <==> code / 100 == 2
  {
    200 <= code <= 299
  }

  const BadCodePrefix: string := "Bad response code from upstream: "

  /** The message of the `RuntimeException` for a bad status: the fixed
      prefix, then the decimal status code, from which the code can be read
      back. */
  function BadCodeMessage(code: int): (r: string)
    ensures |r| > |BadCodePrefix| && r[..|BadCodePrefix|] == BadCodePrefix
    ensures r[|BadCodePrefix|..] == Text.IntToString(code)
    ensures Text.ParseInt(r[|BadCodePrefix|..]) == code
  {
    var digits := Text.IntToString(code);
    assert (BadCodePrefix + digits)[|BadCodePrefix|..] == digits;
    BadCodePrefix + digits
  }

  /** The classification of an exchange: a 2xx response gives its body, or
      the empty string when it has none; any other status gives an error
      carrying that status; a transport failure gives an I/O error. */
  function Classify(exchange: Exchange): (r: Result<string, RequestError>)
    ensures r.Success? <==> exchange.Responded? && IsSuccessful(exchange.response.code)
    ensures r.Success? ==> r.value == exchange.response.body.GetOr("")
    ensures r.Success? && exchange.response.body.None? ==> r.value == ""
    ensures exchange.Responded? && !IsSuccessful(exchange.response.code) ==>
              r == Failure(BadResponseCode(exchange.response.code))
    ensures exchange.TransportFailure? ==> r == Failure(IoError)
  {
    match exchange
    case TransportFailure => Failure(IoError)
    case Responded(resp) =>
      if IsSuccessful(resp.code) then Success(resp.body.GetOr("")) else Failure(BadResponseCode(resp.code))
  }

  /** The request `fetchObservable` builds, or the null dereference that
      stops it when the method or the URI was never set. */
  function BuildRequest(params: ReqParams): (r: Result<Request, RequestError>)
    ensures r.Failure? <==> params.methodName.None? || params.uri.None?
    ensures r.Failure? ==> r.error == NullReference
    ensures r.Success? ==> r.value.url == params.uri.value
    ensures r.Success? ==> r.value.kind == Dispatch(params.methodName.value, params.body)
  {
    if params.methodName.None? || params.uri.None? then Failure(NullReference)
    else Success(Request(params.uri.value, Dispatch(params.methodName.value, params.body)))
  }

  /** What `call.execute()` is given: the built request, on a client whose
      proxy is the one `ClientProxy` sets for the parameters' port. */
  datatype Call = Call(request: Request, proxy: Option<ProxyRouting.Proxy>)

  /** What `fetchObservable(params)` does: the call it makes, when the
      request can be built, and what its subscriber receives, at most one
      value or error. */
  datatype Fetched = Fetched(sent: Option<Call>, received: Option<Result<string, RequestError>>)

  /** `fetchObservable(params)`, where `server` answers each call (a
      response or an `IOException`) and `disposed` says whether the
      subscriber has disposed of its subscription by the time the answer
      comes. A request that cannot be built is never sent and reports the
      null dereference; otherwise the request is sent through the proxy for
      the parameters' port and the subscriber receives the classification of
      the server's answer to exactly that call. */
  function FetchObservable(params: ReqParams, disposed: bool, server: Call -> Exchange): (r: Fetched)
    ensures r.sent.Some? <==> BuildRequest(params).Success?
    ensures r.sent.Some? ==> r.sent.value.request == BuildRequest(params).value
    ensures r.sent.Some? ==> r.sent.value.proxy == ClientProxy(params.httpProxyPort)
    ensures disposed <==> r.received.None?
    ensures !disposed && r.sent.None? ==> r.received == Some(Failure(NullReference))
    ensures !disposed && r.sent.Some? ==> r.received == Some(Classify(server(r.sent.value)))
  {
    match BuildRequest(params)
    case Failure(_) => Fetched(None, if disposed then None else Some(Failure(NullReference)))
    case Success(req) =>
      var call := Call(req, ClientProxy(params.httpProxyPort));
      Fetched(Some(call), if disposed then None else Some(Classify(server(call))))
  }

  /** What `fetch(method, url, body, usePsiphon)` does. Without the tunnel,
      the request is sent at once with the builder's default port 0. With
      it, the request waits for the relay's values `delivered` (its current
      value first) and is sent with the port recorded with the first
      CONNECTED. Either way the method and URI are set, so once the wait is
      over the request is always built and sent. */
  function FetchResult(m: Option<string>, url: string, body: Option<string>, usePsiphon: bool,
                       delivered: seq<ProxyRouting.Observed>, disposed: bool, server: Call -> Exchange)
    : (r: Awaited<Fetched>)
    ensures !usePsiphon ==> r.Resolved?
    ensures r.Resolved? ==> r.value.sent.Some? && r.value.sent.value.request == Request(url, Dispatch(DefaultMethod(m), body))
  {
    if !usePsiphon then
      Resolved(FetchObservable(ReqParams(Some(DefaultMethod(m)), Some(url), body, 0), disposed, server))
    else
      match ProxyRouting.FetchProxyPort(delivered)
      case StillWaiting => StillWaiting
      case Resolved(port) => Resolved(FetchObservable(ReqParams(Some(DefaultMethod(m)), Some(url), body, port), disposed, server))
  }

  /** The proxy `fetch` sends its request through. Without the tunnel there
      is none. With it, the promise waits exactly as long as no CONNECTED
      has been delivered; the first CONNECTED sends the request through the
      HTTP proxy on localhost at the port recorded at that moment, or
      without a proxy when that port is not positive; STOPPED and every
      other state are passed over. Once sent, the promise receives the
      classification of the server's answer to that very call, unless the
      subscription was disposed of. */
  lemma FetchResultWaitsForConnected(m: Option<string>, url: string, body: Option<string>, usePsiphon: bool,
                                     delivered: seq<ProxyRouting.Observed>, disposed: bool, server: Call -> Exchange)
    ensures !usePsiphon ==>
              FetchResult(m, url, body, usePsiphon, delivered, disposed, server).value.sent
              == Some(Call(Request(url, Dispatch(DefaultMethod(m), body)), None))
    ensures usePsiphon ==>
              (FetchResult(m, url, body, usePsiphon, delivered, disposed, server).StillWaiting?
               <==> forall j :: 0 <= j < |delivered| ==> delivered[j].state != PsiphonStates.Connected)
    ensures forall k :: 0 <= k < |delivered| && delivered[k].state == PsiphonStates.Connected
                        && (forall j :: 0 <= j < k ==> delivered[j].state != PsiphonStates.Connected) ==>
              (usePsiphon ==>
                 && FetchResult(m, url, body, usePsiphon, delivered, disposed, server).Resolved?
                 && FetchResult(m, url, body, usePsiphon, delivered, disposed, server).value.sent
                    == Some(Call(Request(url, Dispatch(DefaultMethod(m), body)), ClientProxy(delivered[k].httpProxyPort))))
    ensures var f := FetchResult(m, url, body, usePsiphon, delivered, disposed, server);
            f.Resolved? ==>
              && (disposed <==> f.value.received.None?)
              && (!disposed ==> f.value.received == Some(Classify(server(f.value.sent.value))))
  {
    if usePsiphon && ProxyRouting.FetchProxyPort(delivered).Resolved? {
      var k :| 0 <= k < |delivered| && delivered[k].state == PsiphonStates.Connected
               && ProxyRouting.FetchProxyPort(delivered).value == delivered[k].httpProxyPort
               && forall j :: 0 <= j < k ==> delivered[j].state != PsiphonStates.Connected;
      forall k' | 0 <= k' < |delivered| && delivered[k'].state == PsiphonStates.Connected
                  && (forall j :: 0 <= j < k' ==> delivered[j].state != PsiphonStates.Connected)
        ensures k' == k
      {
      }
    }
  }
}
