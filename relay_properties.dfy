/** What the retry loop of `request` guarantees, proved about the functions
    of module Relay: how many attempts, sleeps and rotations it makes, which
    endings are possible when, that every client call forwards the intercepted
    request unchanged, and that the first answered call ends the loop with
    that answer. */
module RelayProperties {
  import opened Encoding
  import opened Http
  import opened Relay

  // ---------------------------------------------------------------------
  // Counting: attempts, calls, sleeps
  // ---------------------------------------------------------------------

  /** The loop keeps the client's earlier log as a prefix, makes at most
      one call per attempt (one per failed attempt, and one more only for
      the answer it passes through), and sleeps once between two attempts:
      once per failure except a failure that ends the loop. */
  lemma {:induction false} LoopCounts(req: HttpRequest, send: Transport, h: Holder, retry: nat, calls: seq<Call>, sleeps: nat)
    requires retry <= MaxRetries
    ensures var t := Loop(req, send, h, retry, calls, sleeps);
      && retry <= t.failures
      && |calls| <= |t.calls| <= |calls| + (t.failures - retry) + (if t.ending.PassedThrough? then 1 else 0)
      && t.calls[..|calls|] == calls
      && t.sleeps == sleeps + (t.failures - retry) - (if t.ending.Exhausted? || t.ending.Aborted? then 1 else 0)
    decreases MaxRetries - retry
  {
    var n := Step(req, send, h, retry, calls);
    if n.Again? {
      LoopCounts(req, send, n.holder, retry + 1, n.calls, sleeps + 1);
      var t := Loop(req, send, h, retry, calls, sleeps);
      assert t.calls[..|n.calls|] == n.calls;
      assert n.calls[..|calls|] == calls;
      assert t.calls[..|calls|] == t.calls[..|n.calls|][..|calls|];
    }
  }

  /** The client's earlier log stays a prefix of its log. */
  lemma {:induction false} LoopKeepsLog(req: HttpRequest, send: Transport, h: Holder, retry: nat, calls: seq<Call>, sleeps: nat)
    requires retry <= MaxRetries
    ensures calls <= Loop(req, send, h, retry, calls, sleeps).calls
    decreases MaxRetries - retry
  {
    var n := Step(req, send, h, retry, calls);
    StepLog(req, send, h, retry, calls);
    if n.Again? {
      LoopKeepsLog(req, send, n.holder, retry + 1, n.calls, sleeps + 1);
    }
  }

  // ---------------------------------------------------------------------
  // The proxy holder: one rotation per failure
  // ---------------------------------------------------------------------

  /** `_update_proxy(force)` makes a `get()` exactly when there is a source
      and the fetch is forced or no proxy is held; a fetch stores the
      source's next proxy and sets `proxy_updated`, and otherwise nothing
      changes. It never calls `update()`. */
  lemma UpdateProxyFetches(h: Holder, force: bool)
    ensures var r := UpdateProxy(h, force);
      && r.source.Some? == h.source.Some?
      && Updates(r) == Updates(h)
      && (Gets(r) == Gets(h) + 1 <==> h.source.Some? && (force || h.proxy.None?))
      && (Gets(r) == Gets(h) + 1 ==> r.proxy == Some(h.source.value.pick(Gets(h))) && r.updated)
      && (Gets(r) != Gets(h) + 1 ==> r == h)
  {
  }

  /** `initialize()` is the unforced `_update_proxy()`; a second call finds
      a proxy held (or no source) and changes nothing, so two calls make at
      most one `get()`. */
  lemma InitializeTwice(h: Holder)
    ensures Initialize(h) == UpdateProxy(h, false)
    ensures Initialize(Initialize(h)) == Initialize(h)
    ensures Gets(Initialize(Initialize(h))) <= Gets(h) + 1
    ensures Initialize(h).updated <==> h.updated || (h.source.Some? && h.proxy.None?)
  {
  }

  /** With a proxy source, every failed attempt calls `update()` once and
      fetches a fresh proxy with one `get()`. */
  lemma {:induction false} LoopRotations(req: HttpRequest, send: Transport, h: Holder, retry: nat, calls: seq<Call>, sleeps: nat)
    requires retry <= MaxRetries
    ensures var t := Loop(req, send, h, retry, calls, sleeps);
      && t.holder.source.Some? == h.source.Some?
      && (h.source.Some? ==>
            && Updates(t.holder) == Updates(h) + (t.failures - retry)
            && Gets(t.holder) == Gets(h) + (t.failures - retry)
            && t.holder.source.value.pick == h.source.value.pick)
    decreases MaxRetries - retry
  {
    var n := Step(req, send, h, retry, calls);
    if n.Again? {
      LoopRotations(req, send, n.holder, retry + 1, n.calls, sleeps + 1);
    }
  }

  /** The holder holds the proxy the source's last `get()` returned, and
      `proxy_updated` is set. */
  ghost predicate HoldsFetched(h: Holder)
  {
    && h.source.Some? && Gets(h) >= 1
    && h.proxy == Some(h.source.value.pick(Gets(h) - 1))
    && h.updated
  }

  /** Without a source, or when the first attempt does not fail, the holder
      is left exactly as it was; after a failure with a source it holds the
      proxy the last `get()` returned, and `proxy_updated` is set. */
  lemma {:induction false} LoopHolder(req: HttpRequest, send: Transport, h: Holder, retry: nat, calls: seq<Call>, sleeps: nat)
    requires retry <= MaxRetries
    ensures var t := Loop(req, send, h, retry, calls, sleeps);
      && (h.source.None? || t.failures == retry ==> t.holder == h)
      && (h.source.Some? && t.failures > retry ==> HoldsFetched(t.holder))
    decreases MaxRetries - retry
  {
    var n := Step(req, send, h, retry, calls);
    StepHolder(req, send, h, retry, calls);
    if n.Again? {
      LoopHolder(req, send, n.holder, retry + 1, n.calls, sleeps + 1);
      LoopFailures(req, send, n.holder, retry + 1, n.calls, sleeps + 1);
    }
  }

  // ---------------------------------------------------------------------
  // How the loop ends
  // ---------------------------------------------------------------------

  /** The exception escapes exactly when an attempt fails without a proxy
      source; the 502 is written exactly when, with a source, all
      `max_retries + 1` attempts failed; the 501 only for a method outside
      the seven, and such a method never reaches the client (it ends in the
      501 unless the exception escapes, or, entered at the last attempt
      without a proxy, in the 502). */
  lemma {:induction false} LoopEndings(req: HttpRequest, send: Transport, h: Holder, retry: nat, calls: seq<Call>, sleeps: nat)
    requires retry <= MaxRetries
    ensures var t := Loop(req, send, h, retry, calls, sleeps);
      && (t.ending.Aborted? <==> h.source.None? && t.failures > retry)
      && (h.source.None? ==> t.failures <= retry + 1)
      && (t.ending.Exhausted? <==> h.source.Some? && t.failures == Attempts)
      && (t.ending.NotImplemented? ==> ParseVerb(req.methodName).None?)
      && (ParseVerb(req.methodName).None? ==> t.calls == calls && !t.ending.PassedThrough?)
      && (ParseVerb(req.methodName).None? && retry < MaxRetries ==> t.ending.NotImplemented? || t.ending.Aborted?)
    decreases MaxRetries - retry
  {
    var n := Step(req, send, h, retry, calls);
    if n.Again? {
      LoopEndings(req, send, n.holder, retry + 1, n.calls, sleeps + 1);
    }
  }

  // ---------------------------------------------------------------------
  // What the client is asked to do
  // ---------------------------------------------------------------------

  /** A client call that forwards the intercepted request: the verb named
      by its method, its URL and headers, and the body exactly for the verbs
      that send one. */
  predicate Forwards(req: HttpRequest, c: Call)
  {
    && ParseVerb(req.methodName) == Some(c.verb)
    && c.url == req.url
    && c.headers == req.headers
    && c.data == (if SendsBody(c.verb) then Some(RequestBody(req)) else None)
  }

  /** One pass through the loop body keeps the client's log as a prefix and
      adds at most one call: exactly one when the method is one of the seven
      and a proxy is held. A pass that goes round again holds a proxy. */
  lemma StepLog(req: HttpRequest, send: Transport, h: Holder, retry: nat, calls: seq<Call>)
    requires retry <= MaxRetries
    ensures var n := Step(req, send, h, retry, calls);
      && calls <= n.calls && |n.calls| <= |calls| + 1
      && (ParseVerb(req.methodName).Some? ==> |n.calls| == |calls| + (if h.proxy.Some? then 1 else 0))
      && (n.Again? ==> n.holder.proxy.Some?)
  {
  }

  /** One pass leaves the holder alone unless it fails with a source; a
      failure with a source leaves held the proxy the forced `get()`
      returned. A pass that goes round again made its call exactly when it
      started with a proxy. */
  lemma StepHolder(req: HttpRequest, send: Transport, h: Holder, retry: nat, calls: seq<Call>)
    requires retry <= MaxRetries
    ensures var n := Step(req, send, h, retry, calls);
      && (n.Stop? && (h.source.None? || n.failures == retry) ==> n.holder == h)
      && (h.source.Some? && (n.Again? || n.failures > retry) ==>
            && n.holder.source.Some? && n.holder.source.value.pick == h.source.value.pick
            && Gets(n.holder) == Gets(h) + 1
            && n.holder.proxy == Some(h.source.value.pick(Gets(h))) && HoldsFetched(n.holder))
      && (n.Again? ==> h.source.Some? && |n.calls| == |calls| + (if h.proxy.Some? then 1 else 0))
  {
  }

  /** The proxy through which the `j`-th call of a loop entered with
      holder `h` goes: the held proxy for the first call if one is held,
      and otherwise the proxy a forced `get()` returned after the
      preceding failure. */
  function ProxyOfCall(h: Holder, j: nat): (p: Proxy)
    requires h.source.Some?
  {
    if h.proxy.Some? && j == 0 then h.proxy.value
    else h.source.value.pick(Gets(h) + j - (if h.proxy.Some? then 1 else 0))
  }

  /** One pass's call goes through the proxy held at its start. */
  lemma StepProxy(req: HttpRequest, send: Transport, h: Holder, retry: nat, calls: seq<Call>)
    requires retry <= MaxRetries
    requires h.source.Some?
    ensures var n := Step(req, send, h, retry, calls);
      |n.calls| > |calls| ==> n.calls[|calls|].proxy == ProxyUrl(ProxyOfCall(h, 0))
  {
  }

  /** After a failure with a source, calls are numbered from the proxy
      just fetched: the `j`-th call of the next pass is the `j + 1`-th of
      this one when a call was made, and the `j`-th otherwise. */
  lemma ProxyOfCallShift(h: Holder, h': Holder, j: nat)
    requires h.source.Some? && h'.source.Some?
    requires h'.source.value.pick == h.source.value.pick && Gets(h') == Gets(h) + 1
    requires h'.proxy == Some(h.source.value.pick(Gets(h)))
    ensures ProxyOfCall(h', j) == ProxyOfCall(h, j + (if h.proxy.Some? then 1 else 0))
  {
  }

  /** The call one pass makes forwards the request. */
  lemma StepForwards(req: HttpRequest, send: Transport, h: Holder, retry: nat, calls: seq<Call>)
    requires retry <= MaxRetries
    ensures var n := Step(req, send, h, retry, calls);
      |n.calls| > |calls| ==> Forwards(req, n.calls[|calls|])
  {
  }

  /** The call one pass makes is answered exactly when the pass ends with
      that answer passed through; a pass that passes an answer through made
      that call. */
  lemma StepAnswers(req: HttpRequest, send: Transport, h: Holder, retry: nat, calls: seq<Call>)
    requires retry <= MaxRetries
    ensures var n := Step(req, send, h, retry, calls);
      && calls <= n.calls
      && (|n.calls| > |calls| ==>
            (send(n.calls[|calls|], |calls|).Answered? <==> n.Stop? && n.ending.PassedThrough?))
      && (n.Stop? && n.ending.PassedThrough? ==>
            && |n.calls| == |calls| + 1
            && send(n.calls[|n.calls| - 1], |n.calls| - 1) == Answered(n.ending.status, n.ending.headers, n.ending.body))
  {
  }

  /** A pass that runs out of attempts while holding a proxy made a call,
      and the error it reports is what that call raised. */
  lemma StepExhausted(req: HttpRequest, send: Transport, h: Holder, retry: nat, calls: seq<Call>)
    requires retry <= MaxRetries
    ensures var n := Step(req, send, h, retry, calls);
      n.Stop? && n.ending.Exhausted? && h.proxy.Some? ==>
        && |n.calls| == |calls| + 1
        && n.ending.last.TransportError?
        && send(n.calls[|n.calls| - 1], |n.calls| - 1) == Raised(n.ending.last.message)
  {
  }

  /** Every call the loop makes forwards the intercepted request. */
  lemma {:induction false} LoopForwards(req: HttpRequest, send: Transport, h: Holder, retry: nat, calls: seq<Call>, sleeps: nat)
    requires retry <= MaxRetries
    ensures var t := Loop(req, send, h, retry, calls, sleeps);
      forall i :: |calls| <= i < |t.calls| ==> Forwards(req, t.calls[i])
    decreases MaxRetries - retry
  {
    var n := Step(req, send, h, retry, calls);
    StepForwards(req, send, h, retry, calls);
    StepLog(req, send, h, retry, calls);
    if n.Again? {
      LoopForwards(req, send, n.holder, retry + 1, n.calls, sleeps + 1);
      LoopKeepsLog(req, send, n.holder, retry + 1, n.calls, sleeps + 1);
      var t := Loop(req, send, h, retry, calls, sleeps);
      forall i | |calls| <= i < |t.calls|
        ensures Forwards(req, t.calls[i])
      {
        if i < |n.calls| {
          assert t.calls[i] == n.calls[i];
        }
      }
    }
  }

  /** What passes through is the answer to the last call of this request. */
  lemma {:induction false} LoopPassesThroughLastAnswer(req: HttpRequest, send: Transport, h: Holder, retry: nat, calls: seq<Call>, sleeps: nat)
    requires retry <= MaxRetries
    ensures var t := Loop(req, send, h, retry, calls, sleeps);
      t.ending.PassedThrough? ==>
        && |t.calls| > |calls|
        && send(t.calls[|t.calls| - 1], |t.calls| - 1) == Answered(t.ending.status, t.ending.headers, t.ending.body)
    decreases MaxRetries - retry
  {
    var n := Step(req, send, h, retry, calls);
    StepAnswers(req, send, h, retry, calls);
    if n.Again? {
      LoopPassesThroughLastAnswer(req, send, n.holder, retry + 1, n.calls, sleeps + 1);
    }
  }

  /** An answered call ends the loop: it is the last call of this request,
      and its answer is passed through. */
  lemma {:induction false} LoopAnsweredCallEnds(req: HttpRequest, send: Transport, h: Holder, retry: nat, calls: seq<Call>, sleeps: nat)
    requires retry <= MaxRetries
    ensures var t := Loop(req, send, h, retry, calls, sleeps);
      forall k :: |calls| <= k < |t.calls| && send(t.calls[k], k).Answered? ==>
        k == |t.calls| - 1 && t.ending.PassedThrough?
    decreases MaxRetries - retry
  {
    var t := Loop(req, send, h, retry, calls, sleeps);
    var n := Step(req, send, h, retry, calls);
    StepLog(req, send, h, retry, calls);
    StepAnswers(req, send, h, retry, calls);
    if n.Again? {
      LoopAnsweredCallEnds(req, send, n.holder, retry + 1, n.calls, sleeps + 1);
      LoopKeepsLog(req, send, n.holder, retry + 1, n.calls, sleeps + 1);
    }
    forall k | |calls| <= k < |t.calls| && send(t.calls[k], k).Answered?
      ensures k == |t.calls| - 1 && t.ending.PassedThrough?
    {
      if k < |n.calls| {
        // the call this pass made was answered, so the pass ended the loop
        assert k == |calls| && t.calls[k] == n.calls[k];
      }
    }
  }


  /** The 502 reports the failure of the last call: when the loop runs out
      of attempts, the last attempt made a client call and `last_error` is
      the exception it raised (the last attempt always holds a proxy unless
      the loop was entered at that very attempt without one). */
  lemma {:induction false} LoopExhaustedError(req: HttpRequest, send: Transport, h: Holder, retry: nat, calls: seq<Call>, sleeps: nat)
    requires retry <= MaxRetries
    ensures var t := Loop(req, send, h, retry, calls, sleeps);
      t.ending.Exhausted? && (h.proxy.Some? || retry < MaxRetries) ==>
        && |t.calls| > |calls|
        && t.ending.last.TransportError?
        && send(t.calls[|t.calls| - 1], |t.calls| - 1) == Raised(t.ending.last.message)
    decreases MaxRetries - retry
  {
    var n := Step(req, send, h, retry, calls);
    StepExhausted(req, send, h, retry, calls);
    StepLog(req, send, h, retry, calls);
    if n.Again? {
      LoopExhaustedError(req, send, n.holder, retry + 1, n.calls, sleeps + 1);
    }
  }

  /** For a method the dispatch chain knows, every attempt that holds a
      proxy makes exactly one client call and only the first attempt can
      lack a proxy: the calls made are the failed attempts, plus the
      answered one, minus one when no proxy was held on entry. */
  lemma {:induction false} LoopCallCount(req: HttpRequest, send: Transport, h: Holder, retry: nat, calls: seq<Call>, sleeps: nat)
    requires retry <= MaxRetries
    requires ParseVerb(req.methodName).Some?
    ensures var t := Loop(req, send, h, retry, calls, sleeps);
      |t.calls| == |calls| + (t.failures - retry) + (if t.ending.PassedThrough? then 1 else 0) - (if h.proxy.None? then 1 else 0)
    decreases MaxRetries - retry
  {
    var n := Step(req, send, h, retry, calls);
    StepLog(req, send, h, retry, calls);
    if n.Again? {
      LoopCallCount(req, send, n.holder, retry + 1, n.calls, sleeps + 1);
    }
  }

  /** The calls of `all` from index `|calls|` on go through the proxies
      `ProxyOfCall` numbers from holder `h`. */
  ghost predicate ProxiesFrom(h: Holder, calls: seq<Call>, all: seq<Call>)
    requires h.source.Some?
  {
    forall i :: |calls| <= i < |all| ==> all[i].proxy == ProxyUrl(ProxyOfCall(h, i - |calls|))
  }

  /** With a proxy source, the first call goes through the proxy held on
      entry, and each later call through the proxy fetched by the forced
      `get()` after the failure before it. */
  lemma {:induction false} LoopProxies(req: HttpRequest, send: Transport, h: Holder, retry: nat, calls: seq<Call>, sleeps: nat)
    requires retry <= MaxRetries
    requires h.source.Some?
    ensures ProxiesFrom(h, calls, Loop(req, send, h, retry, calls, sleeps).calls)
    decreases MaxRetries - retry
  {
    var n := Step(req, send, h, retry, calls);
    if n.Again? {
      LoopProxies(req, send, n.holder, retry + 1, n.calls, sleeps + 1);
      LoopKeepsLog(req, send, n.holder, retry + 1, n.calls, sleeps + 1);
      ProxiesAfterRotation(req, send, h, retry, calls, Loop(req, send, n.holder, retry + 1, n.calls, sleeps + 1).calls);
    } else {
      StepProxies(req, send, h, retry, calls);
    }
  }

  /** The calls of one pass are numbered from its start. */
  lemma StepProxies(req: HttpRequest, send: Transport, h: Holder, retry: nat, calls: seq<Call>)
    requires retry <= MaxRetries && h.source.Some?
    ensures ProxiesFrom(h, calls, Step(req, send, h, retry, calls).calls)
  {
    StepLog(req, send, h, retry, calls);
    StepProxy(req, send, h, retry, calls);
  }

  /** When a pass fails and rotates, the calls after it numbered from the
      rotated holder are the calls numbered from the pass's start. */
  lemma ProxiesAfterRotation(req: HttpRequest, send: Transport, h: Holder, retry: nat, calls: seq<Call>, all: seq<Call>)
    requires retry <= MaxRetries && h.source.Some?
    requires var n := Step(req, send, h, retry, calls);
      && n.Again? && n.calls <= all
      && n.holder.source.Some? && ProxiesFrom(n.holder, n.calls, all)
    ensures ProxiesFrom(h, calls, all)
  {
    var n := Step(req, send, h, retry, calls);
    StepHolder(req, send, h, retry, calls);
    StepProxy(req, send, h, retry, calls);
    forall i | |calls| <= i < |all|
      ensures all[i].proxy == ProxyUrl(ProxyOfCall(h, i - |calls|))
    {
      if i < |n.calls| {
        assert all[i] == n.calls[i];
      } else {
        ProxyOfCallShift(h, n.holder, i - |n.calls|);
      }
    }
  }

  // ---------------------------------------------------------------------
  // Whole requests
  // ---------------------------------------------------------------------

  /** A method outside the seven never reaches the client and ends without
      retrying. With a proxy held the 501 comes at once; without one but
      with a source, building the proxy URL fails once, the proxy is
      rotated and the relay sleeps once before the 501; with neither, the
      exception escapes. */
  lemma ServeUnsupported(req: HttpRequest, send: Transport, h: Holder, prior: seq<Call>)
    requires ParseVerb(req.methodName).None?
    ensures var t := Serve(req, send, h, prior);
      && t.calls == prior
      && (t.ending.NotImplemented? <==> h.proxy.Some? || h.source.Some?)
      && (t.ending.Aborted? <==> h.proxy.None? && h.source.None?)
      && (h.proxy.Some? ==> t.failures == 0 && t.sleeps == 0 && t.holder == h)
      && (h.proxy.None? && h.source.Some? ==>
            && t.failures == 1 && t.sleeps == 1
            && Updates(t.holder) == Updates(h) + 1 && Gets(t.holder) == Gets(h) + 1
            && t.holder.proxy == Some(h.source.value.pick(Gets(h))))
  {
    LoopEndings(req, send, h, 0, prior, 0);
    LoopCounts(req, send, h, 0, prior, 0);
    LoopRotations(req, send, h, 0, prior, 0);
    LoopHolder(req, send, h, 0, prior, 0);
    StepHolder(req, send, h, 0, prior);
    StepLog(req, send, h, 0, prior);
    var n := Step(req, send, h, 0, prior);
    if n.Again? {
      StepLog(req, send, n.holder, 1, n.calls);
      StepHolder(req, send, n.holder, 1, n.calls);
    }
  }

  /** A request makes at most `max_retries + 1` client calls, after the
      calls already in the client's log. */
  lemma ServeCallBound(req: HttpRequest, send: Transport, h: Holder, prior: seq<Call>)
    ensures var t := Serve(req, send, h, prior);
      prior <= t.calls && |t.calls| <= |prior| + Attempts
  {
    LoopCounts(req, send, h, 0, prior, 0);
    LoopFailures(req, send, h, 0, prior, 0);
  }

  /** When every client call raises, a relay with a proxy source makes all
      `max_retries + 1` attempts, sleeps between each two, rotates the proxy
      after each, and answers with the 502 (whose error is that of the last
      call, by `LoopExhaustedError`). */
  lemma ServeAlwaysRaising(req: HttpRequest, send: Transport, h: Holder, prior: seq<Call>)
    requires ParseVerb(req.methodName).Some? && h.source.Some?
    requires forall c: Call, k: nat :: send(c, k).Raised?
    ensures var t := Serve(req, send, h, prior);
      && t.ending.Exhausted?
      && t.failures == Attempts && t.sleeps == MaxRetries
      && Updates(t.holder) == Updates(h) + Attempts && Gets(t.holder) == Gets(h) + Attempts
      && |t.calls| == |prior| + Attempts - (if h.proxy.None? then 1 else 0)
  {
    var t := Serve(req, send, h, prior);
    LoopPassesThroughLastAnswer(req, send, h, 0, prior, 0);
    assert !t.ending.PassedThrough?;    // no call is ever answered
    LoopEndings(req, send, h, 0, prior, 0);
    assert t.ending.Exhausted?;
    LoopCounts(req, send, h, 0, prior, 0);
    LoopRotations(req, send, h, 0, prior, 0);
    LoopCallCount(req, send, h, 0, prior, 0);
  }

  /** When the first `j` calls raise and the next is answered (with a proxy
      held and a source to rotate from, `j <= max_retries`), the request
      ends by passing an answer through (that of its last call, by
      `LoopPassesThroughLastAnswer`), having made `j + 1` calls. */
  lemma ServeAnsweredCall(req: HttpRequest, send: Transport, h: Holder, prior: seq<Call>, j: nat)
    requires ParseVerb(req.methodName).Some? && h.source.Some? && h.proxy.Some?
    requires j <= MaxRetries
    requires forall c: Call, k: nat :: send(c, k).Raised? <==> k < |prior| + j
    ensures var t := Serve(req, send, h, prior);
      && t.ending.PassedThrough?
      && |t.calls| == |prior| + j + 1
  {
    var t := Serve(req, send, h, prior);
    LoopEndings(req, send, h, 0, prior, 0);
    LoopCallCount(req, send, h, 0, prior, 0);
    LoopExhaustedError(req, send, h, 0, prior, 0);
    // running out would take max_retries + 1 calls, the last of them raising
    assert !t.ending.Exhausted?;
    LoopPassesThroughLastAnswer(req, send, h, 0, prior, 0);
    LoopAnsweredCallEnds(req, send, h, 0, prior, 0);
    var k := |prior| + j;
    assert |t.calls| - 1 >= k;                // the last call was answered
    assert send(t.calls[k], k).Answered?;     // and so was call k, which ends the loop
  }

  /** In that case the request takes `j` failures, `j` sleeps and `j`
      rotations: one `update()` and one `get()` per failure. */
  lemma ServeAnswersAfterFailures(req: HttpRequest, send: Transport, h: Holder, prior: seq<Call>, j: nat)
    requires ParseVerb(req.methodName).Some? && h.source.Some? && h.proxy.Some?
    requires j <= MaxRetries
    requires forall c: Call, k: nat :: send(c, k).Raised? <==> k < |prior| + j
    ensures var t := Serve(req, send, h, prior);
      && t.ending.PassedThrough?
      && t.failures == j && t.sleeps == j
      && Updates(t.holder) == Updates(h) + j && Gets(t.holder) == Gets(h) + j
      && |t.calls| == |prior| + j + 1
  {
    var t := Serve(req, send, h, prior);
    ServeAnsweredCall(req, send, h, prior, j);
    LoopCallCount(req, send, h, 0, prior, 0);
    assert t.failures == j;
    LoopCounts(req, send, h, 0, prior, 0);
    LoopRotations(req, send, h, 0, prior, 0);
  }

  // ---------------------------------------------------------------------
  // The 502 body
  // ---------------------------------------------------------------------

  /** Three ASCII pieces followed by any text encode to the pieces' codes
      followed by the text's UTF-8 encoding. */
  lemma Utf8AfterAscii(a: string, d: string, b: string, m: string)
    requires forall i :: 0 <= i < |a| ==> a[i] as int < 0x80
    requires forall i :: 0 <= i < |d| ==> d[i] as int < 0x80
    requires forall i :: 0 <= i < |b| ==> b[i] as int < 0x80
    ensures Utf8(a + d + b + m) == Ascii(a) + Ascii(d) + Ascii(b) + Utf8(m)
  {
    Utf8Concat(a + d + b, m);
    Utf8Concat(a + d, b);
    Utf8Concat(a, d);
    AsciiIsUtf8(a);
    AsciiIsUtf8(d);
    AsciiIsUtf8(b);
  }

  /** The 502 body is the ASCII text `Error after 51 attempts: ` followed by
      the UTF-8 encoding of the last error's message. */
  lemma ExhaustedBody(last: Failure)
    ensures ExhaustedResponse(last).status == 502
    ensures ExhaustedResponse(last).body
      == Ascii("Error after ") + Ascii("51") + Ascii(" attempts: ") + Utf8(Message(last))
  {
    assert Decimal(Attempts) == "51";
    Utf8AfterAscii("Error after ", Decimal(Attempts), " attempts: ", Message(last));
  }
}
