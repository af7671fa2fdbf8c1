/** The outbound HTTP client: a bounded retry loop that owns response bodies, behind a circuit breaker. */
module Outbound {
  import opened Results

  /** A response whose body can be closed; `closes` counts how often it was. */
  class Response {
    const status: int
    var closes: nat

    constructor (status: int)
      ensures this.status == status && closes == 0
    {
      this.status := status;
      closes := 0;
    }

    /** Discards up to 32 KiB and closes the body. */
    method Close()
      modifies this
      ensures closes == old(closes) + 1
    {
      closes := closes + 1;
    }
  }

  /** What one http.Client.Do returns: both parts are checked by the caller, in every combination. */
  datatype Reply = Reply(response: Response?, failed: bool)

  /** Everything outside the client, call by call: request construction, the reply, the wait afterwards. */
  datatype Exchange = Exchange(built: bool, reply: Reply, waited: bool)

  datatype CallError = BadPath | RequestNotBuilt | TransportFailed | Cancelled | Exhausted | BreakerRejected

  datatype CallResult = Returned(response: Response?) | Errored(error: CallError)

  /** Only the methods HTTP calls idempotent, or a context carrying an idempotency key, are retried. */
  predicate RetryableMethod(verb: string, hasKey: bool) {
    verb == "GET" || verb == "HEAD" || verb == "OPTIONS" || verb == "PUT" || verb == "DELETE" || hasKey
  }

  predicate RetryableStatus(status: int) {
    status == 429 || status == 502 || status == 503 || status == 504
  }

  /** The calls one request may cost. */
  function MaxCalls(verb: string, hasKey: bool, configured: int): int {
    if verb in {"GET", "HEAD", "OPTIONS", "PUT", "DELETE"} || hasKey then configured else 1
  }

  /** A POST without idempotency key is never repeated, whatever the retry policy says. */
  lemma PlainPostIsOneCall(configured: int)
    ensures MaxCalls("POST", false, configured) == 1
  {
  }

  /** Worth another call: a transport error or a retryable status. */
  predicate Discarded(reply: Reply) {
    reply.failed || (reply.response != null && reply.response.status in {429, 502, 503, 504})
  }

  /** The first exchange at which the client stops: the only one that may end the loop before the limit. */
  predicate Stops(e: Exchange) {
    !e.built || !Discarded(e.reply) || !e.waited
  }

  ghost predicate FreshReplies(script: seq<Exchange>) {
    forall i, j | 0 <= i < j < |script| && script[i].reply.response != null ::
      script[i].reply.response != script[j].reply.response
  }

  function Bodies(script: seq<Exchange>): set<Response> {
    set e | e in script && e.reply.response != null :: e.reply.response
  }

  /** How a loop that got as far as exchange `last` (0-based) of at most `limit` ends. */
  function Ending(e: Exchange, last: bool): CallResult
    requires last || Stops(e)
  {
    if !e.built then Errored(RequestNotBuilt)
    else if !Discarded(e.reply) then Returned(e.reply.response)
    else if !last then Errored(Cancelled)
    else if e.reply.failed then Errored(TransportFailed)
    else Returned(e.reply.response)
  }

  /**
   * How doWithRetry ends on a given script: it passes over exchanges that do not stop it, and the last one it
   * looks at decides. `calls` counts http.Client.Do, `seen` the exchanges looked at.
   */
  ghost predicate Ended(pathOk: bool, limit: int, script: seq<Exchange>, result: CallResult, calls: nat, seen: nat) {
    if !pathOk then result == Errored(BadPath) && calls == seen == 0
    else if limit < 1 then result == Errored(Exhausted) && calls == seen == 0
    else
      && 1 <= seen <= limit && seen <= |script|
      && (forall i | 0 <= i < seen - 1 :: !Stops(script[i]))
      && (seen < limit ==> Stops(script[seen - 1]))
      && result == Ending(script[seen - 1], seen == limit)
      && calls == (if script[seen - 1].built then seen else seen - 1)
  }

  /** The script leaves no choice. */
  lemma EndedUnique(pathOk: bool, limit: int, script: seq<Exchange>, r: CallResult, c: nat, n: nat, r': CallResult,
                    c': nat, n': nat)
    requires Ended(pathOk, limit, script, r, c, n) && Ended(pathOk, limit, script, r', c', n')
    ensures r == r' && c == c' && n == n'
  {
  }

  /**
   * The retry budget: at most `limit` calls, at least one unless the request cannot be built; a retryable
   * answer is handed out only when the budget is spent; and the attempts are never "exhausted" unless the
   * limit was below one to begin with.
   */
  lemma RetryBudget(pathOk: bool, limit: int, script: seq<Exchange>, result: CallResult, calls: nat, seen: nat)
    requires Ended(pathOk, limit, script, result, calls, seen)
    ensures calls <= (if limit >= 1 then limit else 0)
    ensures pathOk && limit >= 1 && result != Errored(RequestNotBuilt) ==> calls >= 1
    ensures pathOk ==> (result == Errored(Exhausted) <==> limit < 1)
    ensures result.Returned? && result.response != null && result.response.status in {429, 502, 503, 504} ==>
              calls == limit
    ensures result.Returned? && calls < limit ==>
              result.response == null || result.response.status !in {429, 502, 503, 504}
    ensures result.Returned? ==>
              && calls >= 1 && !script[calls - 1].reply.failed
              && result.response == script[calls - 1].reply.response
  {
  }

  /** Bodies the client moved past are closed once more than before, the one it ended on and all later ones are not. */
  twostate predicate ClosedBefore(script: seq<Exchange>, seen: nat, result: CallResult)
    reads Bodies(script)
  {
    forall i | 0 <= i < |script| && script[i].reply.response != null ::
      script[i].reply.response.closes == old(script[i].reply.response.closes) +
        (if i < seen - 1 || (i == seen - 1 && result == Errored(Cancelled)) then 1 else 0)
  }

  /** doWithRetry: every body it moved past was closed exactly once, the one it returns is still open. */
  method DoWithRetry(pathOk: bool, verb: string, hasKey: bool, configured: int, script: seq<Exchange>)
    returns (result: CallResult, calls: nat, seen: nat)
    requires FreshReplies(script) && |script| >= MaxCalls(verb, hasKey, configured)
    modifies Bodies(script)
    ensures Ended(pathOk, MaxCalls(verb, hasKey, configured), script, result, calls, seen) && seen <= |script|
    ensures ClosedBefore(script, seen, result)
  {
    calls, seen := 0, 0;
    if !pathOk {
      return Errored(BadPath), 0, 0;
    }
    var maxAttempts := 1;
    if RetryableMethod(verb, hasKey) {
      maxAttempts := configured;
    }
    var attempt := 1;
    while attempt <= maxAttempts
      invariant maxAttempts == MaxCalls(verb, hasKey, configured)
      invariant if maxAttempts >= 1 then 1 <= attempt <= maxAttempts else attempt == 1
      invariant calls == seen == attempt - 1 <= |script|
      invariant forall i | 0 <= i < seen :: !Stops(script[i])
      invariant forall i | 0 <= i < seen && script[i].reply.response != null ::
                  script[i].reply.response.closes == old(script[i].reply.response.closes) + 1
      invariant forall i | seen <= i < |script| && script[i].reply.response != null ::
                  script[i].reply.response.closes == old(script[i].reply.response.closes)
    {
      var exchange := script[attempt - 1];
      seen := seen + 1;
      if !exchange.built {
        return Errored(RequestNotBuilt), calls, seen;
      }
      var response, failed := exchange.reply.response, exchange.reply.failed;
      calls := calls + 1;
      if !failed && (response == null || !RetryableStatus(response.status) || attempt == maxAttempts) {
        return Returned(response), calls, seen;
      }
      if failed && attempt == maxAttempts {
        return Errored(TransportFailed), calls, seen;
      }
      if response != null {
        assert exchange in script;
        response.Close();
      }
      if attempt < maxAttempts && !exchange.waited {
        return Errored(Cancelled), calls, seen;
      }
      attempt := attempt + 1;
    }
    return Errored(Exhausted), calls, seen;
  }

  /** What the breaker's callback returns: doWithRetry's result, or the response wrapped into an error. */
  datatype Wrapped = Plain(result: CallResult) | StatusError(response: Response)

  /** The breaker books a failure for every error it is shown. */
  predicate BookedAsFailure(w: Wrapped) {
    w.StatusError? || w.result.Errored?
  }

  /**
   * execute: behind a breaker that admits the call the caller gets exactly what doWithRetry returned, while
   * the breaker sees a retryable status as a failure; a breaker that rejects the call costs none.
   */
  method Execute(hasBreaker: bool, admits: bool, pathOk: bool, verb: string, hasKey: bool, configured: int,
                 script: seq<Exchange>)
    returns (result: CallResult, calls: nat, seen: nat, booked: Option<bool>)
    requires FreshReplies(script) && |script| >= MaxCalls(verb, hasKey, configured)
    modifies Bodies(script)
    ensures hasBreaker && !admits ==> result == Errored(BreakerRejected) && calls == seen == 0 && booked == None
    ensures !hasBreaker || admits ==>
              Ended(pathOk, MaxCalls(verb, hasKey, configured), script, result, calls, seen) && seen <= |script|
    ensures ClosedBefore(script, seen, result)
    ensures hasBreaker && admits ==>
              booked == Some(result.Errored? ||
                             (result.response != null && result.response.status in {429, 502, 503, 504}))
    ensures !hasBreaker ==> booked == None
  {
    booked := None;
    if !hasBreaker {
      result, calls, seen := DoWithRetry(pathOk, verb, hasKey, configured, script);
      return;
    }
    if !admits {
      return Errored(BreakerRejected), 0, 0, None;
    }
    var inner;
    inner, calls, seen := DoWithRetry(pathOk, verb, hasKey, configured, script);
    var wrapped := Plain(inner);
    if inner.Returned? && inner.response != null && RetryableStatus(inner.response.status) {
      wrapped := StatusError(inner.response);
    }
    booked := Some(BookedAsFailure(wrapped));
    result := if wrapped.StatusError? then Returned(wrapped.response) else wrapped.result;
  }
}
