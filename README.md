# RelayX request relay, modelled in Dafny

RelayX puts a mitmproxy addon, `RnetAddon`, in front of the rnet HTTP client.
For each intercepted request the addon:

- forwards the request through an upstream proxy taken from a shared proxy
  source (swiftshadow's `ProxyInterface`);
- builds the response it writes from the client's status, body and headers;
- when an attempt raises an `Exception`, calls `update()` on the source and
  fetches a fresh proxy with `get()`, sleeps 0.5 s and tries again (other
  exceptions, such as a cancellation, are not caught);
- gives up after `max_retries + 1 = 51` failed attempts with a 502 naming the
  last error;
- answers a method outside GET, POST, PUT, DELETE, HEAD, OPTIONS, PATCH with
  a 501.

This project models that addon (`relayx/server.py`, lines 20-130) and proves
what the retry loop guarantees.

- `encoding.dfy` (module `Encoding`): the implicit text-to-bytes steps.
  - `str.encode()` as UTF-8, for the 502 body.
  - ASCII bytes literals, for the 501 body.
  - The decimal rendering of integers in f-strings: the attempt count and
    the proxy port.
- `http.dfy` (module `Http`): the values the relay handles.
  - The intercepted request and the seven verbs of the dispatch chain.
  - The upstream proxy and the proxy URL built from it.
  - The call made on the client, what the client reports back (an exception
    or a response), and the response written onto the flow.
- `relay.dfy` (module `Relay`): the behaviour as functions.
  - The proxy holder: `self.proxy`, `self.proxy_updated` and the shared
    source, with `initialize` and `_update_proxy`.
  - `Try`, one pass through the `try` block.
  - `Step`, one pass through the loop body including the `except` clause.
  - `Loop`, the `while` loop as a recursion over `retry_count`.
  - `Serve`, the whole of `request` for one flow.
- `server.dfy` (module `Server`): the imperative addon, proved to change state
  exactly as those functions say.
  - `ProxySource`: the shared source, with counters of `get()` and
    `update()` calls.
  - `Client`: the outbound client, with its call log.
  - `Flow`: the intercepted flow, whose `response` the addon sets.
  - `Addon`: `RnetAddon` itself.
  - `Addon.Request` keeps the source's `while` loop, with `retry_count` and
    `last_error`.
- `relay_properties.dfy` (module `RelayProperties`): what the loop guarantees.
  - Attempt, sleep and rotation counts.
  - How a request can end.
  - That every call forwards the request (the body only for POST, PUT and
    PATCH).
  - Which proxy each call goes through: the one held on entry, then the one
    fetched after each failure.
  - That the first answered call ends the loop with its answer passed
    through.
  - That an exhausted request reports the last call's error.
  - The exact 502 body.
  - Whole-request scenarios: unsupported method, every call raising, `j`
    failures then an answer.

The client and the proxy source are oracles.
- The client is a function from a call, and the number of calls made before
  it, to an exception message or a response (status, headers, body).
- The source is a function from the number of `get()` calls made so far to
  the proxy handed out.

Everything is proved for all such functions.

The addon may be built without a proxy source, which is the constructor's
default. In that case the first failed attempt makes
`self.proxy_interface.update()` raise out of `request`. The flow then keeps
no response; the model calls this ending `Aborted`.

If no proxy is held when an attempt starts (`initialize` was never called),
building the proxy URL raises inside the `try`. That counts as a failed
attempt, and the method check comes only after it.

## Model

| member | source | states |
|---|---|---|
| Encoding.Utf8 | relayx/server.py:128 | `str.encode()`: between one and four bytes per character |
| Encoding.Utf8Concat | relayx/server.py:128 | encoding an f-string is encoding its pieces and concatenating the bytes |
| Encoding.Ascii | relayx/server.py:88 | a bytes literal has one byte per character |
| Encoding.AsciiIsUtf8 | relayx/server.py:88 | for ASCII text the bytes literal and the encoded string are the same bytes |
| Encoding.Decimal | relayx/server.py:58 | `f"{n}"` for a non-negative integer: decimal digits only, one digit exactly below 10, no leading zero |
| Encoding.DecimalInjective | relayx/server.py:58 | different numbers render differently |
| Encoding.DecimalValue | relayx/server.py:58 | reading the digits back, most significant first, gives the number |
| Http.ParseVerb | relayx/server.py:61-85 | the `if method == ...` chain recognises a name only as the verb it spells |
| Http.ParseVerbComplete | relayx/server.py:61-90 | the chain falls through to the 501 exactly for names outside the seven; every verb's name reaches its own branch |
| Http.RequestBody | relayx/server.py:52 | the body sent is the request content, or empty bytes when there is none |
| Http.ProxyUrl | relayx/server.py:58 | `f"{protocol}://{ip}:{port}"`; what it determines is stated by `Http.ProxyUrlInjective` |
| Http.ProxyUrlSplits | relayx/server.py:58 | the proxy URL is the protocol, a colon, and `//ip:port` |
| Http.DropSlashes | relayx/server.py:58 | the text after `//` is determined by the text it follows |
| Http.ProxyUrlInjective | relayx/server.py:58 | `protocol://ip:port` determines the proxy, as long as protocol and ip contain no ':' |
| Http.Dispatch | relayx/server.py:61-84 | each branch calls the client method of its verb with the URL, headers and proxy URL; only POST, PUT and PATCH pass `data=body` |
| Relay.Initialize | relayx/server.py:29-33 | the source is kept and never refreshed; with a source a proxy is held afterwards; with a proxy held or no source nothing changes |
| Relay.UpdateProxy | relayx/server.py:35-39 | `_update_proxy(force)`; its behaviour is stated by `RelayProperties.UpdateProxyFetches` |
| Relay.Rotate | relayx/server.py:109 | `update()` on the source, recorded in its count; `RelayProperties.LoopRotations` counts one per failure |
| Relay.ResponseOf | relayx/server.py:87-130 | a response is written unless the exception escapes; a passed-through response keeps status, body and headers |
| Relay.NotImplementedResponse | relayx/server.py:87-89 | the 501 carries `text/plain` and the 22 bytes of `Method not implemented` |
| Relay.ExhaustedResponse | relayx/server.py:126-130 | the 502 carries `text/plain` and a body at least 25 bytes longer than the error message; the exact bytes are stated by `RelayProperties.ExhaustedBody` |
| Relay.Try | relayx/server.py:55-103 | one pass through the `try` block: no proxy raises before any call; an unknown method gives the 501 without a call; otherwise exactly one call, whose answer is passed through or whose exception is caught |
| Relay.Step | relayx/server.py:54-120 | a pass loops again only while `retry_count` stays within `max_retries`; the 502 is reached only at the last attempt |
| Relay.Loop | relayx/server.py:54-120 | the `while` loop as a recursion over `retry_count`; its properties are the `Loop` lemmas of `RelayProperties` |
| Relay.LoopFailures | relayx/server.py:108-120 | `retry_count` only grows, at most to 51; 51 exactly when the relay gives up, at most 50 when it writes the client's response or the 501 |
| Relay.Serve | relayx/server.py:41-130 | one request fails at most 51 times, exactly 51 times when it answers with the 502, and at most 50 times when it writes the client's response or the 501 |
| Server.ProxySource.Get | relayx/server.py:37 | `get()` hands out the next proxy and counts the call |
| Server.ProxySource.Update | relayx/server.py:109 | `update()` counts the call and changes nothing else |
| Server.Client.Send | relayx/server.py:62-95 | a client call returns the oracle's outcome for that call and appends it to the log |
| Server.Addon.constructor | relayx/server.py:23-27 | a fresh client, the given proxy source, no proxy held, `proxy_updated` false |
| Server.Addon.Initialize | relayx/server.py:29-33 | the new state is `Relay.Initialize` of the old one |
| Server.Addon.UpdateProxy | relayx/server.py:35-39 | the new state is `Relay.UpdateProxy` of the old one |
| Server.Addon.RotateProxy | relayx/server.py:109-110 | `update()` followed by the forced `_update_proxy` |
| Server.Addon.TryOnce | relayx/server.py:55-103 | the `try` block changes the client log and the flow's response exactly as `Relay.Try` says, and reports the exception caught |
| Server.Addon.Attempt | relayx/server.py:54-120 | one loop pass: holder, client log and flow end as `Relay.Step` says; it reports an escaping exception and the `break` |
| Server.Addon.Request | relayx/server.py:41-130 | `request(flow)` leaves holder, client log, sleep count and flow response exactly as `Relay.Serve` says |
| RelayProperties.LoopCounts | relayx/server.py:54-120 | the earlier log is kept; at most one call per failed attempt, and one more only for the answer passed through; one sleep per failure except one that ends the loop |
| RelayProperties.LoopKeepsLog | relayx/server.py:62-84 | the client's earlier calls stay a prefix of its log |
| RelayProperties.UpdateProxyFetches | relayx/server.py:35-39 | `_update_proxy` calls `get()` exactly when a source exists and `force` is set or no proxy is held; a fetch stores the proxy and sets `proxy_updated`; otherwise nothing changes |
| RelayProperties.InitializeTwice | relayx/server.py:29-39 | `initialize` is the unforced `_update_proxy`; a second call changes nothing, so two calls make at most one `get()`; it sets `proxy_updated` exactly when it fetches |
| RelayProperties.LoopRotations | relayx/server.py:108-110 | with a source, each failure makes one `update()` and one `get()`, and the source is kept; without a source none is gained |
| RelayProperties.LoopHolder | relayx/server.py:101-110 | without failures, or without a source, the holder is unchanged; after a failure with a source the proxy held is the one the last `get()` returned, and `proxy_updated` is set |
| RelayProperties.LoopEndings | relayx/server.py:54-130 | the exception escapes iff an attempt fails without a source; the 502 iff all 51 attempts fail with a source; the 501 only for an unknown method, which never reaches the client |
| RelayProperties.StepLog | relayx/server.py:55-110 | one pass adds at most one call, exactly one for a known method with a proxy held; a pass that loops again holds a proxy |
| RelayProperties.StepHolder | relayx/server.py:101-110 | one pass changes the holder only by failing with a source; it then holds the proxy of the one `get()` it made; a pass that loops again made its call exactly when it started with a proxy |
| RelayProperties.StepForwards | relayx/server.py:61-84 | the call one pass makes forwards the request |
| RelayProperties.StepAnswers | relayx/server.py:92-103 | one pass's call is answered exactly when the pass passes that answer through |
| RelayProperties.StepExhausted | relayx/server.py:101-117 | a last failing pass that held a proxy made a call, and reports what that call raised |
| RelayProperties.LoopForwards | relayx/server.py:61-84 | every call the loop makes has the request's verb, URL and headers, with the body exactly for POST, PUT and PATCH |
| RelayProperties.LoopPassesThroughLastAnswer | relayx/server.py:93-99 | what passes through is status, headers and bytes of the answer to the request's last call |
| RelayProperties.LoopAnsweredCallEnds | relayx/server.py:92-99 | an answered call is the request's last call, and its answer is passed through; every earlier call raised |
| RelayProperties.LoopExhaustedError | relayx/server.py:103-130 | the 502's `last_error` is the exception raised by the last call |
| RelayProperties.LoopCallCount | relayx/server.py:54-84 | for a known method, one call per attempt holding a proxy; only the first attempt can lack one |
| RelayProperties.StepProxy | relayx/server.py:58-84 | the call one pass makes goes through the proxy held at its start |
| RelayProperties.StepProxies | relayx/server.py:58-84 | the calls of one pass go through the proxies numbered from its start |
| RelayProperties.ProxyOfCallShift | relayx/server.py:108-110 | after a rotation the numbering of calls restarts at the proxy just fetched |
| RelayProperties.ProxiesAfterRotation | relayx/server.py:101-120 | the calls after a failed, rotated pass keep the numbering from the pass's start |
| RelayProperties.LoopProxies | relayx/server.py:37-110 | with a source, the first call goes through the proxy held on entry, and each later call through the proxy the forced `get()` after the preceding failure returned |
| RelayProperties.ServeUnsupported | relayx/server.py:85-90 | an unknown method makes no call; with a proxy held it gets the 501 at once: no failure, no sleep, holder unchanged; without one but with a source, one failure, one sleep, one `update()` and one `get()` precede the 501; with neither, the exception escapes |
| RelayProperties.ServeCallBound | relayx/server.py:54-120 | one request makes at most 51 client calls, appended after the earlier ones |
| RelayProperties.ServeAlwaysRaising | relayx/server.py:101-130 | when every call raises and there is a source: 51 failures, 50 sleeps, 51 `update()` and 51 `get()` calls, 51 calls (50 without an initial proxy), then the 502 |
| RelayProperties.ServeAnsweredCall | relayx/server.py:92-117 | when the first `j <= 50` calls raise and the next is answered, the request passes an answer through after exactly `j + 1` calls |
| RelayProperties.ServeAnswersAfterFailures | relayx/server.py:108-120 | in that case: `j` failures, `j` sleeps, `j` `update()` and `j` `get()` calls |
| RelayProperties.ExhaustedBody | relayx/server.py:126-130 | the 502 body is the ASCII bytes of `Error after 51 attempts: ` followed by the UTF-8 of the last error's message |

## Left out

- `ThreadedMitmProxy` and `HttpProxy` (relayx/server.py:133-218) are not part of this model: thread and event-loop lifecycle, mitmproxy wiring and server start-up.
- Concurrency is not modelled. Requests handled at the same time share `self.proxy` and the proxy source, and their interleaving at each `await` is not captured. Each request is modelled as running alone.
- The rnet client is an oracle. Impersonation, TLS, timeouts and the network are not modelled; only what a call returns or raises is.
- The swiftshadow proxy source is an oracle. How it picks among its proxies and how `update()` refreshes them are not modelled. `get()` raising (an empty pool) and `update()` raising are not modelled; inside the `except` clause either would end `request` with that exception.
- Logging (lines 32, 38, 104-106, 123-125) is left out: it changes no state.
- `asyncio.sleep(0.5)` is a counter of sleeps, not time.
- Headers are a map from name to value. Merging repeated header names, in `dict(flow.request.headers)` and `dict(resp.headers.items())`, is not modelled.
- The response status is taken as the natural number the client reports. `int(str(resp.status_code))` is not modelled.
- Exception messages are Dafny strings. A message holding a lone surrogate, whose `.encode()` would raise, cannot be represented.
- `Http.ProxyUrlInjective`: proved only for a protocol and an address without ':'. An IPv6 address contains ':' and can make two proxies give the same URL.
- The code has no exponential backoff, no overall deadline, no session-affinity table, no `SessionID/` parsing, and no 499 or 504 response: the delay is a constant 0.5 s, the retry limit a constant 50, and the only responses of its own are the 501 and the 502. The model follows the code.
- Exceptions that `except Exception` (line 101) does not catch are not modelled. These are `BaseException` subclasses such as `asyncio.CancelledError` or `KeyboardInterrupt`, raised at the awaits of lines 62-84, 93 and 120. They escape `request` with no rotation and no response; the client's outcomes in `Http.Exchange` have no such case.
- `http.Response.make` is modelled by its three arguments: status, body and headers. What mitmproxy adds when it builds the response, such as the `content-length` header set with the content, is not modelled.
- `check.py`, `main.py` and `relayx/__init__.py` are not part of this model: a network test client, argument parsing and a version string.
