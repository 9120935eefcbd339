/** The HTTP-level values the relay handles: the intercepted request, the
    seven verbs it can forward, the upstream proxy and the URL built from it,
    the call handed to the outbound client, what that client reports back,
    and the response written onto the intercepted flow. */
module Http {
  import opened Encoding

  datatype Option<T> = None | Some(value: T)

  type Headers = map<string, string>

  /** The verbs the relay's dispatch chain knows. */
  datatype Verb = GET | POST | PUT | DELETE | HEAD | OPTIONS | PATCH

  function VerbName(v: Verb): (name: string)
  {
    match v
    case GET => "GET"
    case POST => "POST"
    case PUT => "PUT"
    case DELETE => "DELETE"
    case HEAD => "HEAD"
    case OPTIONS => "OPTIONS"
    case PATCH => "PATCH"
  }

  /** The `if method == "GET" ... elif method == "PATCH" ... else` chain:
      case-sensitive string equality against the seven names, in order. */
  function ParseVerb(name: string): (v: Option<Verb>)
    ensures v.Some? ==> VerbName(v.value) == name
  {
    if name == "GET" then Some(GET)
    else if name == "POST" then Some(POST)
    else if name == "PUT" then Some(PUT)
    else if name == "DELETE" then Some(DELETE)
    else if name == "HEAD" then Some(HEAD)
    else if name == "OPTIONS" then Some(OPTIONS)
    else if name == "PATCH" then Some(PATCH)
    else None
  }

  /** Every verb is recognised by its own name, so the dispatch chain
      rejects exactly the method strings outside the seven names. */
  lemma ParseVerbComplete(name: string)
    ensures ParseVerb(name).None? <==> forall v: Verb :: VerbName(v) != name
    ensures forall v: Verb :: ParseVerb(VerbName(v)) == Some(v)
  {
    forall v: Verb ensures ParseVerb(VerbName(v)) == Some(v) {
      match v
      case GET =>
      case POST =>
      case PUT =>
      case DELETE =>
      case HEAD =>
      case OPTIONS =>
      case PATCH =>
    }
  }

  /** The verbs whose client call carries `data=body`. */
  predicate SendsBody(v: Verb)
  {
    v == POST || v == PUT || v == PATCH
  }

  /** An intercepted request as the relay reads it: `content` is None when
      the front end holds no body. */
  datatype HttpRequest = HttpRequest(methodName: string, url: string, headers: Headers, content: Option<Bytes>)

  /** `flow.request.content if flow.request.content else b""`. */
  function RequestBody(req: HttpRequest): (body: Bytes)
    ensures req.content.Some? ==> body == req.content.value
    ensures req.content.None? ==> body == []
  {
    if req.content.Some? && |req.content.value| > 0 then req.content.value else []
  }

  /** An upstream proxy as the proxy source hands it out. */
  datatype Proxy = Proxy(protocol: string, ip: string, port: nat)

  /** `f"{proxy.protocol}://{proxy.ip}:{proxy.port}"`. */
  function ProxyUrl(p: Proxy): (url: string)
  {
    p.protocol + "://" + p.ip + ":" + Decimal(p.port)
  }

  /** Two strings free of ':' followed by ':' split the same way only when
      they are equal. */
  lemma SplitAtColon(a: string, r: string, a': string, r': string)
    requires ':' !in a && ':' !in a'
    requires a + ":" + r == a' + ":" + r'
    ensures a == a' && r == r'
  {
    var s := a + ":" + r;
    assert s[|a|] == ':' && s[|a'|] == ':';
    assert |a| == |a'|;
    assert a == s[..|a|] == a';
    assert r == s[|a| + 1..] == r';
  }

  /** The proxy URL is the protocol, a colon, and the rest. */
  lemma ProxyUrlSplits(p: Proxy)
    ensures ProxyUrl(p) == p.protocol + ":" + ("//" + (p.ip + ":" + Decimal(p.port)))
  {
  }

  /** Dropping the two slashes after the protocol's colon. */
  lemma DropSlashes(x: string, y: string)
    requires "//" + x == "//" + y
    ensures x == y
  {
    assert x == ("//" + x)[2..];
  }

  /** The proxy URL identifies the proxy, as long as neither the protocol
      nor the address contains a colon (an IPv6 address would). */
  lemma ProxyUrlInjective(p: Proxy, q: Proxy)
    requires ':' !in p.protocol && ':' !in p.ip
    requires ':' !in q.protocol && ':' !in q.ip
    requires ProxyUrl(p) == ProxyUrl(q)
    ensures p == q
  {
    var tp := p.ip + ":" + Decimal(p.port);
    var tq := q.ip + ":" + Decimal(q.port);
    ProxyUrlSplits(p);
    ProxyUrlSplits(q);
    SplitAtColon(p.protocol, "//" + tp, q.protocol, "//" + tq);
    DropSlashes(tp, tq);
    SplitAtColon(p.ip, Decimal(p.port), q.ip, Decimal(q.port));
    DecimalInjective(p.port, q.port);
  }

  /** One call on the outbound client: which method it invokes and the
      arguments it passes (`data` only for the verbs that send a body). */
  datatype Call = Call(verb: Verb, url: string, headers: Headers, data: Option<Bytes>, proxy: string)

  /** The seven branches of the dispatch chain, each calling the client
      method named after the verb. */
  function Dispatch(v: Verb, url: string, headers: Headers, body: Bytes, proxy: string): (c: Call)
    ensures c.verb == v && c.url == url && c.headers == headers && c.proxy == proxy
    ensures c.data == (if SendsBody(v) then Some(body) else None)
  {
    match v
    case GET => Call(GET, url, headers, None, proxy)
    case POST => Call(POST, url, headers, Some(body), proxy)
    case PUT => Call(PUT, url, headers, Some(body), proxy)
    case DELETE => Call(DELETE, url, headers, None, proxy)
    case HEAD => Call(HEAD, url, headers, None, proxy)
    case OPTIONS => Call(OPTIONS, url, headers, None, proxy)
    case PATCH => Call(PATCH, url, headers, Some(body), proxy)
  }

  /** What one client call ends in: an exception (its `str`), or a response
      whose status, headers and content bytes were read. */
  datatype Exchange = Raised(message: string) | Answered(status: nat, headers: Headers, body: Bytes)

  /** The outbound client's behaviour: the outcome of a call, given the call
      and how many calls the client has made before it. */
  type Transport = (Call, nat) -> Exchange

  /** The response the relay writes onto the intercepted flow. */
  datatype Response = Response(status: nat, body: Bytes, headers: Headers)

  const TextPlain: Headers := map["Content-Type" := "text/plain"]
}
