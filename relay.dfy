/** The relay addon's behaviour as functions of its state: the proxy holder
    (`self.proxy`, `self.proxy_updated` and the shared proxy source), one
    pass through the body of the `try` block, and the retry loop of
    `request`, written as a tail-recursive function whose arguments are the
    loop's variables. The imperative addon in module Server is proved to do
    exactly what these functions say. */
module Relay {
  import opened Encoding
  import opened Http

  /** `max_retries`. */
  const MaxRetries: nat := 50

  /** `max_retries + 1`: attempts made before the relay gives up. */
  const Attempts: nat := MaxRetries + 1

  /** `str(e)` for the AttributeError raised when the addon holds no proxy
      and builds the proxy URL from `None`. */
  const NoProxyMessage: string := "'NoneType' object has no attribute 'protocol'"

  /** An exception caught by the `except` clause of one attempt. */
  datatype Failure =
    | NoProxy                        // no proxy held: building the proxy URL raised
    | TransportError(message: string) // the client call or reading its response raised

  /** `str(last_error)`. */
  function Message(f: Failure): (m: string)
  {
    match f
    case NoProxy => NoProxyMessage
    case TransportError(m) => m
  }

  // ---------------------------------------------------------------------
  // The proxy source and the proxy holder
  // ---------------------------------------------------------------------

  /** The shared proxy source (`ProxyInterface`), as far as the relay can
      see it: `pick(n)` is the proxy its `n`-th `get()` hands out (the
      source chooses among the proxies it holds, and `update()` may refresh
      them), and the counters record the `get()` and `update()` calls made
      on it. */
  datatype SourceState = SourceState(pick: nat -> Proxy, gets: nat, updates: nat)

  /** `proxy_interface.get()`: the next proxy the source hands out. */
  function SourceGet(s: SourceState): (r: (Proxy, SourceState))
  {
    (s.pick(s.gets), s.(gets := s.gets + 1))
  }

  /** `proxy_interface.update()`: a refresh request, recorded. */
  function SourceUpdate(s: SourceState): (s': SourceState)
  {
    s.(updates := s.updates + 1)
  }

  /** What the addon holds: `self.proxy`, `self.proxy_updated`, and the
      proxy source behind `self.proxy_interface` (None when the addon was
      built without one). */
  datatype Holder = Holder(proxy: Option<Proxy>, updated: bool, source: Option<SourceState>)

  /** Number of `get()` calls the source has served (0 without a source). */
  function Gets(h: Holder): (n: nat)
  {
    if h.source.Some? then h.source.value.gets else 0
  }

  /** Number of `update()` calls the source has received (0 without a source). */
  function Updates(h: Holder): (n: nat)
  {
    if h.source.Some? then h.source.value.updates else 0
  }

  /** `_update_proxy(force)`: fetch a proxy when there is a source and
      either the fetch is forced or no proxy is held. */
  function UpdateProxy(h: Holder, force: bool): (r: Holder)
  {
    if h.source.Some? && (force || h.proxy.None?) then
      var (p, s) := SourceGet(h.source.value);
      Holder(Some(p), true, Some(s))
    else
      h
  }

  /** `initialize()`: fetch a proxy when there is a source and no proxy is
      held. */
  function Initialize(h: Holder): (r: Holder)
    ensures r.source.Some? == h.source.Some? && Updates(r) == Updates(h)
    ensures h.source.Some? ==> r.proxy.Some?
    ensures h.source.None? || h.proxy.Some? ==> r == h
  {
    if h.source.Some? && h.proxy.None? then
      var (p, s) := SourceGet(h.source.value);
      Holder(Some(p), true, Some(s))
    else
      h
  }

  /** `self.proxy_interface.update()` in the failure handler (with no
      source the call raises instead; see `Step`). */
  function Rotate(h: Holder): (r: Holder)
  {
    if h.source.Some? then h.(source := Some(SourceUpdate(h.source.value))) else h
  }

  // ---------------------------------------------------------------------
  // Responses
  // ---------------------------------------------------------------------

  /** How a request ends: the client's response passed through, the 501 for
      an unknown method, the 502 after the last attempt failed, or an
      exception escaping `request` (no response is set). */
  datatype Ending =
    | PassedThrough(status: nat, headers: Headers, body: Bytes)
    | NotImplemented
    | Exhausted(last: Failure)
    | Aborted

  function NotImplementedResponse(): (r: Response)
    ensures r.status == 501 && r.headers == TextPlain && |r.body| == 22
  {
    Response(501, Ascii("Method not implemented"), TextPlain)
  }

  /** `f"Error after {max_retries + 1} attempts: {str(last_error)}".encode()`. */
  function ExhaustedResponse(last: Failure): (r: Response)
    ensures r.status == 502 && r.headers == TextPlain
    ensures |Message(last)| + 25 <= |r.body|
  {
    Response(502, Utf8("Error after " + Decimal(Attempts) + " attempts: " + Message(last)), TextPlain)
  }

  /** The response written onto the flow, if any. */
  function ResponseOf(e: Ending): (r: Option<Response>)
    ensures r.None? <==> e.Aborted?
    ensures e.PassedThrough? ==> r == Some(Response(e.status, e.body, e.headers))
  {
    match e
    case PassedThrough(status, headers, body) => Some(Response(status, body, headers))
    case NotImplemented => Some(NotImplementedResponse())
    case Exhausted(last) => Some(ExhaustedResponse(last))
    case Aborted => None
  }

  // ---------------------------------------------------------------------
  // One attempt and the retry loop
  // ---------------------------------------------------------------------

  /** The outcome of the body of the `try` block, with the client calls it
      made (none or one). */
  datatype Attempt = Done(ending: Ending, sent: seq<Call>) | Failed(error: Failure, sent: seq<Call>)

  /** One pass through the `try` block with `proxy` held, the client having
      made `k` calls before: build the proxy URL, dispatch on the method,
      call the client and read its response. */
  function Try(req: HttpRequest, send: Transport, proxy: Option<Proxy>, k: nat): (a: Attempt)
    ensures |a.sent| == (if proxy.Some? && ParseVerb(req.methodName).Some? then 1 else 0)
    ensures |a.sent| == 1 ==>
      a.sent[0] == Dispatch(ParseVerb(req.methodName).value, req.url, req.headers, RequestBody(req), ProxyUrl(proxy.value))
    ensures a.Done? <==> proxy.Some? && (|a.sent| == 0 || send(a.sent[0], k).Answered?)
    ensures a.Done? ==> (a.ending.NotImplemented? <==> |a.sent| == 0)
    ensures a.Done? ==> a.ending.NotImplemented? || a.ending.PassedThrough?
    ensures a.Done? && |a.sent| == 1 ==>
      send(a.sent[0], k) == Answered(a.ending.status, a.ending.headers, a.ending.body)
    ensures a.Failed? && |a.sent| == 1 ==> a.error == TransportError(send(a.sent[0], k).message)
    ensures a.Failed? && |a.sent| == 0 ==> a.error == NoProxy
  {
    if proxy.None? then
      Failed(NoProxy, [])
    else
      var proxyUrl := ProxyUrl(proxy.value);
      match ParseVerb(req.methodName)
      case None => Done(NotImplemented, [])
      case Some(v) =>
        var call := Dispatch(v, req.url, req.headers, RequestBody(req), proxyUrl);
        match send(call, k)
        case Answered(status, headers, body) => Done(PassedThrough(status, headers, body), [call])
        case Raised(message) => Failed(TransportError(message), [call])
  }

  /** Everything one request did: how it ended, the holder afterwards, the
      client's call log, the number of failed attempts (`retry_count`, or
      one more when the failure handler itself raised) and the number of
      sleeps. */
  datatype Trace = Trace(ending: Ending, holder: Holder, calls: seq<Call>, failures: nat, sleeps: nat)

  /** Where one pass through the loop body leads: the loop ends (with how
      the request ended, the holder, the client's log and `retry_count`), or
      it goes round again with a new holder and log. */
  datatype Next =
    | Stop(ending: Ending, holder: Holder, calls: seq<Call>, failures: nat)
    | Again(holder: Holder, calls: seq<Call>)

  /** One pass through the body of `while retry_count <= max_retries` with
      `retry` failures so far: the `try` block, and after a failure the
      `except` clause (`update()` on the source, which raises without one,
      the forced `_update_proxy`, the increment and the `break` test). */
  function Step(req: HttpRequest, send: Transport, h: Holder, retry: nat, calls: seq<Call>): (n: Next)
    requires retry <= MaxRetries
    ensures n.Again? ==> retry < MaxRetries
    ensures n.Stop? && n.ending.Exhausted? ==> retry == MaxRetries
  {
    match Try(req, send, h.proxy, |calls|)
    case Done(ending, sent) => Stop(ending, h, calls + sent, retry)
    case Failed(error, sent) =>
      if h.source.None? then
        Stop(Aborted, h, calls + sent, retry + 1)
      else
        var h' := UpdateProxy(Rotate(h), true);
        if retry + 1 > MaxRetries then Stop(Exhausted(error), h', calls + sent, retry + 1)
        else Again(h', calls + sent)
  }

  /** The loop entered with `retry` failures so far, the holder `h`, the
      client's log `calls` and `sleeps` sleeps done; a pass that goes round
      again sleeps once. */
  function Loop(req: HttpRequest, send: Transport, h: Holder, retry: nat, calls: seq<Call>, sleeps: nat): (t: Trace)
    requires retry <= MaxRetries
    decreases MaxRetries - retry
  {
    match Step(req, send, h, retry, calls)
    case Stop(ending, h', calls', failures) => Trace(ending, h', calls', failures, sleeps)
    case Again(h', calls') => Loop(req, send, h', retry + 1, calls', sleeps + 1)
  }

  /** Failures only accumulate, up to `max_retries + 1`; all of them are
      counted when the relay gives up, and fewer when it writes the client's
      response or the 501. */
  lemma {:induction false} LoopFailures(req: HttpRequest, send: Transport, h: Holder, retry: nat, calls: seq<Call>, sleeps: nat)
    requires retry <= MaxRetries
    ensures var t := Loop(req, send, h, retry, calls, sleeps);
      && retry <= t.failures <= Attempts
      && (t.ending.Exhausted? ==> t.failures == Attempts)
      && (t.ending.PassedThrough? || t.ending.NotImplemented? ==> t.failures <= MaxRetries)
    decreases MaxRetries - retry
  {
    var n := Step(req, send, h, retry, calls);
    if n.Again? {
      LoopFailures(req, send, n.holder, retry + 1, n.calls, sleeps + 1);
    }
  }

  /** The whole of `request` for one flow, the client having logged `prior`
      calls before it. */
  function Serve(req: HttpRequest, send: Transport, h: Holder, prior: seq<Call>): (t: Trace)
    ensures t.failures <= Attempts
    ensures t.ending.Exhausted? ==> t.failures == Attempts
    ensures t.ending.PassedThrough? || t.ending.NotImplemented? ==> t.failures <= MaxRetries
  {
    LoopFailures(req, send, h, 0, prior, 0);
    Loop(req, send, h, 0, prior, 0)
  }
}
