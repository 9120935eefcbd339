/** The relay addon as the objects it is made of: the shared proxy source,
    the outbound client, the intercepted flow, and the addon itself with the
    proxy it holds. Every method is proved to change state exactly as the
    functions of module Relay say. */
module Server {
  import opened Encoding
  import opened Http
  import opened Relay

  /** The shared proxy source (`ProxyInterface`): `pick(n)` is the proxy
      its `n`-th `get()` hands out; `gets` and `updates` count the calls
      made on it. */
  class ProxySource {
    const pick: nat -> Proxy
    var gets: nat
    ghost var updates: nat

    ghost function State(): (s: SourceState)
      reads this
    {
      SourceState(pick, gets, updates)
    }

    constructor (pick: nat -> Proxy)
      ensures State() == SourceState(pick, 0, 0)
    {
      this.pick := pick;
      gets, updates := 0, 0;
    }

    /** `get()`: the next proxy; the source moves on. */
    method Get() returns (p: Proxy)
      modifies this
      ensures (p, State()) == SourceGet(old(State()))
    {
      p := pick(gets);
      gets := gets + 1;
    }

    /** `update()`: a refresh request; only the call is recorded. */
    method Update()
      modifies this
      ensures State() == SourceUpdate(old(State()))
    {
      updates := updates + 1;
    }
  }

  /** The outbound client (`self.client`): what each call returns is given
      by `answer`, from the call and the number of calls made before it;
      `sent` logs the calls in order. */
  class Client {
    const answer: Transport
    var sent: seq<Call>

    constructor (answer: Transport)
      ensures this.answer == answer && sent == []
    {
      this.answer := answer;
      sent := [];
    }

    /** One `client.get/post/...` call, response bytes included. */
    method Send(call: Call) returns (e: Exchange)
      modifies this
      ensures e == answer(call, |old(sent)|)
      ensures sent == old(sent) + [call]
    {
      e := answer(call, |sent|);
      sent := sent + [call];
    }
  }

  /** An intercepted exchange: the request as received, and the response
      the addon sets (None until then). */
  class Flow {
    const request: HttpRequest
    var response: Option<Response>

    constructor (request: HttpRequest)
      ensures this.request == request && response == None
    {
      this.request := request;
      response := None;
    }
  }

  /** `RnetAddon`: relays each intercepted request through the current
      upstream proxy, rotating it and retrying when an attempt fails. */
  class Addon {
    const client: Client
    const proxyInterface: ProxySource?
    var proxy: Option<Proxy>
    var proxyUpdated: bool

    /** The addon's state as a value of module Relay. */
    ghost function Model(): (h: Holder)
      reads this, proxyInterface
    {
      Holder(proxy, proxyUpdated, if proxyInterface == null then None else Some(proxyInterface.State()))
    }

    /** `__init__`: a fresh client, the given proxy source, no proxy held. */
    constructor (proxyInterface: ProxySource?, answer: Transport)
      ensures fresh(client) && client.answer == answer && client.sent == []
      ensures this.proxyInterface == proxyInterface
      ensures Model() == Holder(None, false, if proxyInterface == null then None else Some(proxyInterface.State()))
    {
      client := new Client(answer);
      this.proxyInterface := proxyInterface;
      proxy := None;
      proxyUpdated := false;
    }

    /** `initialize()`: fetch a first proxy unless one is held. */
    method Initialize()
      modifies this, proxyInterface
      ensures Model() == Relay.Initialize(old(Model()))
    {
      if proxyInterface != null && proxy.None? {
        var fetched := proxyInterface.Get();
        proxy := Some(fetched);
        proxyUpdated := true;
      }
    }

    /** `_update_proxy(force)`: fetch a proxy when forced or none is held. */
    method UpdateProxy(force: bool)
      modifies this, proxyInterface
      ensures Model() == Relay.UpdateProxy(old(Model()), force)
    {
      if proxyInterface != null && (force || proxy.None?) {
        var fetched := proxyInterface.Get();
        proxy := Some(fetched);
        proxyUpdated := true;
      }
    }

    /** The rotation in the `except` clause of `request`:
        `self.proxy_interface.update()` followed by a forced
        `_update_proxy`. */
    method RotateProxy()
      requires proxyInterface != null
      modifies this, proxyInterface
      ensures Model() == Relay.UpdateProxy(Rotate(old(Model())), true)
    {
      proxyInterface.Update();
      UpdateProxy(true);
    }

    /** The body of the `try` block in `request`: build the proxy URL from
        the held proxy, dispatch on the method and call the client. A
        response (the client's, or the 501 for an unknown method) is set on
        the flow and `failure` is None; otherwise `failure` is the exception
        caught. */
    method TryOnce(flow: Flow, methodName: string, url: string, headers: Headers, body: Bytes)
      returns (failure: Option<Failure>)
      requires methodName == flow.request.methodName && url == flow.request.url
      requires headers == flow.request.headers && body == RequestBody(flow.request)
      modifies client, flow
      ensures var a := Try(flow.request, client.answer, proxy, |old(client.sent)|);
        && client.sent == old(client.sent) + a.sent
        && (a.Done? ==> failure.None? && flow.response == ResponseOf(a.ending))
        && (a.Failed? ==> failure == Some(a.error) && flow.response == old(flow.response))
    {
      if proxy.None? {
        return Some(NoProxy);
      }
      var proxyUrl := ProxyUrl(proxy.value);
      match ParseVerb(methodName)
      case None =>
        flow.response := Some(NotImplementedResponse());
        return None;
      case Some(verb) =>
        var reply := client.Send(Dispatch(verb, url, headers, body, proxyUrl));
        match reply
        case Answered(status, replyHeaders, content) =>
          flow.response := Some(Response(status, content, replyHeaders));
          return None;
        case Raised(message) =>
          return Some(TransportError(message));
    }

    /** One pass through the loop body of `request` with `retryCount`
        failures so far: the `try` block (`failure` is None when it set a
        response), then on failure the `except` clause: `raised` when
        `update()` is called on a missing proxy source, otherwise the
        rotation, and `giveUp` when the incremented count exceeds
        `max_retries`. */
    method Attempt(flow: Flow, methodName: string, url: string, headers: Headers, body: Bytes, retryCount: nat)
      returns (failure: Option<Failure>, raised: bool, giveUp: bool)
      requires retryCount <= MaxRetries
      requires methodName == flow.request.methodName && url == flow.request.url
      requires headers == flow.request.headers && body == RequestBody(flow.request)
      modifies this, proxyInterface, client, flow
      ensures var n := Step(flow.request, client.answer, old(Model()), retryCount, old(client.sent));
        && Model() == n.holder && client.sent == n.calls
        && (failure.None? <==> n.Stop? && (n.ending.PassedThrough? || n.ending.NotImplemented?))
        && (raised <==> n.Stop? && n.ending.Aborted?)
        && (giveUp <==> n.Stop? && n.ending.Exhausted?)
        && (giveUp ==> failure == Some(n.ending.last))
        && flow.response == (if failure.None? then ResponseOf(n.ending) else old(flow.response))
    {
      failure := TryOnce(flow, methodName, url, headers, body);
      raised, giveUp := false, false;
      if failure.Some? {
        if proxyInterface == null {
          raised := true;
        } else {
          RotateProxy();
          giveUp := retryCount + 1 > MaxRetries;
        }
      }
    }

    /** `request(flow)`: relay the flow's request, retrying on failure, and
        set the flow's response; `raised` reports the exception that escapes
        when an attempt fails without a proxy source. `sleeps` counts the
        pauses between attempts. */
    method Request(flow: Flow) returns (raised: bool, ghost sleeps: nat)
      modifies this, proxyInterface, client, flow
      ensures var t := Serve(flow.request, client.answer, old(Model()), old(client.sent));
        && Model() == t.holder
        && client.sent == t.calls
        && sleeps == t.sleeps
        && raised == t.ending.Aborted?
        && flow.response == (if t.ending.Aborted? then old(flow.response) else ResponseOf(t.ending))
    {
      var retryCount: nat := 0;
      var lastError: Option<Failure> := None;

      var methodName := flow.request.methodName;
      var url := flow.request.url;
      var headers := flow.request.headers;
      var body := RequestBody(flow.request);

      raised, sleeps := false, 0;
      ghost var goal := Loop(flow.request, client.answer, Model(), 0, client.sent, 0);

      while retryCount <= MaxRetries
        invariant retryCount <= MaxRetries && !raised
        invariant Loop(flow.request, client.answer, Model(), retryCount, client.sent, sleeps) == goal
        invariant flow.response == old(flow.response)
      {
        var failure, giveUp;
        failure, raised, giveUp := Attempt(flow, methodName, url, headers, body, retryCount);
        if failure.None? || raised {
          return;
        }
        lastError := failure;
        if giveUp {
          break;
        }
        retryCount := retryCount + 1;
        sleeps := sleeps + 1;
      }

      flow.response := Some(ExhaustedResponse(lastError.value));
    }
  }
}
