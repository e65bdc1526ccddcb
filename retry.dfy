/** The retry coordinator of `GeneralRequestParser`: a stateful callable that
    allows `numberOfRetries + 1` attempts at fetching and decoding one query,
    and answers "exhausted" once they are spent.

    The remote side is abstracted as a `Gateway`: a deterministic fetch oracle
    indexed by the query and the attempt number of the coordinator, and a
    decoder that may reject a handle. The integer sentinels of the source
    (-1 for a failed attempt, -2 for a spent budget) become the tagged
    `Response` type. */
module Retry {

  datatype Option<T> = None | Some(value: T)

  /** What the fetch function answers: the failure sentinel, or a live handle. */
  datatype Fetched<H> = FetchFailed | Got(handle: H)

  /** What one call of the coordinator answers. */
  datatype Response<P> = Transient | Exhausted | Ok(payload: P)

  /** `fetch(q, k)` is the fetch function's answer to query `q` on attempt
      `k` (counted from 0) of one coordinator; `decode(h)` is the parsed
      payload of handle `h`, or `None` when the payload is malformed,
      truncated or not valid XML. */
  datatype Gateway<!Q, !H, P> = Gateway(fetch: (Q, nat) -> Fetched<H>, decode: H -> Option<P>)

  /** One attempt: call fetch, then decode the handle it gives. Either
      failure is the transient result; only the spent budget, never an
      attempt, answers exhausted. */
  function Attempt<Q, H, P>(g: Gateway<Q, H, P>, q: Q, k: nat): (r: Response<P>)
    ensures !r.Exhausted?
    ensures r.Ok? <==> g.fetch(q, k).Got? && g.decode(g.fetch(q, k).handle).Some?
  {
    match g.fetch(q, k)
    case FetchFailed => Transient
    case Got(h) =>
      match g.decode(h)
      case None => Transient
      case Some(p) => Ok(p)
  }

  /** Where a caller's `while result is transient` loop over one coordinator
      ends up: the result that stops the loop, and the counter it leaves. */
  datatype Settled<P> = Settled(result: Response<P>, counter: nat)

  /** The loop of geeneus/backend/Parser.py:51-52 (and :82-83) run on a
      coordinator whose counter stands at `k`. The result is the first
      successful attempt at or after `k`, or exhausted when every remaining
      attempt is transient; it is never transient itself. */
  function Run<Q, H, P>(retry: nat, g: Gateway<Q, H, P>, q: Q, k: nat): (s: Settled<P>)
    requires k <= retry + 1
    ensures !s.result.Transient?
    ensures k <= s.counter <= retry + 1
    ensures s.result.Exhausted? ==> s.counter == retry + 1
    ensures s.result.Ok? ==> k < s.counter && Attempt(g, q, s.counter - 1) == s.result
    ensures forall j :: k <= j < s.counter && !(s.result.Ok? && j == s.counter - 1) ==> Attempt(g, q, j).Transient?
    decreases retry + 1 - k
  {
    if k == retry + 1 then Settled(Exhausted, k)
    else
      var r := Attempt(g, q, k);
      if r.Transient? then Run(retry, g, q, k + 1) else Settled(r, k + 1)
  }

  /** Exhaustion happens exactly when every attempt the budget allows is
      transient. */
  lemma {:induction false} RunExhaustedIff<Q, H, P>(retry: nat, g: Gateway<Q, H, P>, q: Q, k: nat)
    requires k <= retry + 1
    ensures Run(retry, g, q, k).result.Exhausted? <==> forall j :: k <= j <= retry ==> Attempt(g, q, j).Transient?
    decreases retry + 1 - k
  {
    if k < retry + 1 {
      RunExhaustedIff(retry, g, q, k + 1);
    }
  }

  /** The remote service as seen from the parser: `log` holds every query
      handed to the fetch function, in order, by every coordinator. */
  class Remote<Q> {
    ghost var log: seq<Q>

    constructor ()
      ensures log == []
    {
      log := [];
    }
  }

  /** `n` copies of `x`: the log of `n` fetch calls for one query. */
  function Repeat<T>(x: T, n: nat): (r: seq<T>)
    ensures |r| == n && forall i :: 0 <= i < n ==> r[i] == x
  {
    if n == 0 then [] else Repeat(x, n - 1) + [x]
  }

  /** The closure built by `_build_retry_function`, with its captured counter
      cell `retryCounter`, the retry count it was built with, and the remote
      service its fetch function talks to. */
  class RetryCoordinator<Q, H, P> {
    const numberOfRetries: nat
    const gateway: Gateway<Q, H, P>
    const remote: Remote<Q>
    var retryCounter: nat

    ghost predicate Valid()
      reads this
    {
      retryCounter <= numberOfRetries + 1
    }

    constructor (numberOfRetries: nat, gateway: Gateway<Q, H, P>, remote: Remote<Q>)
      ensures Valid()
      ensures this.numberOfRetries == numberOfRetries && this.gateway == gateway && this.remote == remote
      ensures retryCounter == 0
    {
      this.numberOfRetries := numberOfRetries;
      this.gateway := gateway;
      this.remote := remote;
      retryCounter := 0;
    }

    /** One call of the closure. Within the budget it counts the attempt,
        calls fetch once (one more query in the remote's log) and answers
        the attempt's outcome; past the budget it answers exhausted and
        calls nothing. */
    method Call(q: Q) returns (r: Response<P>)
      requires Valid()
      modifies this, remote
      ensures Valid()
      ensures old(retryCounter) < numberOfRetries + 1 ==>
        retryCounter == old(retryCounter) + 1 && remote.log == old(remote.log) + [q] &&
        r == Attempt(gateway, q, old(retryCounter))
      ensures old(retryCounter) >= numberOfRetries + 1 ==>
        retryCounter == old(retryCounter) && remote.log == old(remote.log) && r.Exhausted?
    {
      if retryCounter < numberOfRetries + 1 {
        retryCounter := retryCounter + 1;
        var handle := gateway.fetch(q, retryCounter - 1);
        remote.log := remote.log + [q];
        if handle.FetchFailed? {
          return Transient;
        }
        match gateway.decode(handle.handle)
        case None =>
          r := Transient;
        case Some(xml) =>
          r := Ok(xml);
      } else {
        r := Exhausted;
      }
    }
  }

  /** With a retry count of 0 the first call makes the single permitted
      attempt and the second call is exhausted without another one. */
  method RetryZeroScenario<Q, H, P>(g: Gateway<Q, H, P>, q: Q) returns (first: Response<P>, second: Response<P>, attempts: nat)
    ensures first == Attempt(g, q, 0)
    ensures second.Exhausted?
    ensures attempts == 1
  {
    var remote := new Remote();
    var c := new RetryCoordinator(0, g, remote);
    first := c.Call(q);
    second := c.Call(q);
    attempts := c.retryCounter;
  }

  /** A caller looping while the answer is transient, against a query that
      fails on every attempt, makes exactly `retry + 1` attempts in
      `retry + 2` calls and ends exhausted. */
  method AlwaysFailingScenario<Q, H, P>(retry: nat, g: Gateway<Q, H, P>, q: Q) returns (result: Response<P>, calls: nat, attempts: nat)
    requires forall k: nat :: Attempt(g, q, k).Transient?
    ensures result.Exhausted?
    ensures attempts == retry + 1
    ensures calls == retry + 2
  {
    var remote := new Remote();
    var c := new RetryCoordinator(retry, g, remote);
    result := Transient;
    calls := 0;
    while result.Transient?
      invariant c.Valid() && c.numberOfRetries == retry && c.gateway == g
      invariant result.Transient? ==> calls == c.retryCounter
      invariant !result.Transient? ==> result.Exhausted? && c.retryCounter == retry + 1 && calls == retry + 2
      decreases if result.Transient? then retry + 2 - c.retryCounter else 0
    {
      result := c.Call(q);
      calls := calls + 1;
    }
    attempts := c.retryCounter;
  }
}
