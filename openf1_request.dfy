/** `makeRequest`: one GET through the rate-limit retry loop. The HTTP client
    is an input `reply(url, i)`, the outcome of the i-th attempt at `url`;
    instead of sleeping, the loop returns the waits it would sleep. */
module OpenF1Request {
  import opened Optional
  import opened OpenF1

  const TooManyRequests: int := 429

  /** A response: its status and its body, `None` when reading it fails. */
  datatype Response = Response(status: int, body: Option<string>)

  /** One attempt: the transport failed, or a response came back. */
  datatype Attempt = TransportError | Answered(response: Response)

  predicate RateLimited(a: Attempt)
  {
    a.Answered? && a.response.status == TooManyRequests
  }

  /** The outcome of the retry loop from attempt `i` on, as a reference
      definition: the first attempt that is not a 429 decides, up to
      `MaxRetries` attempts in all. */
  function RetryFrom(url: string, reply: (string, nat) -> Attempt, i: nat): Result<Response, Error>
    requires i <= MaxRetries
    decreases MaxRetries - i
  {
    if i == MaxRetries then Err(MaxRetriesExceeded)
    else match reply(url, i)
      case TransportError => Err(RequestFailed)
      case Answered(response) =>
        if response.status == TooManyRequests then RetryFrom(url, reply, i + 1) else Ok(response)
  }

  function Retry(url: string, reply: (string, nat) -> Attempt): Result<Response, Error>
  {
    RetryFrom(url, reply, 0)
  }

  /** The retry loop. `waits` lists the back-off after each 429, the i-th
      being (i+1) times the rate-limit delay; the loop stops at the first
      transport error (no retry) or the first other status (returned as is),
      and after `MaxRetries` 429s reports that retries are exhausted. */
  method MakeRequest(url: string, reply: (string, nat) -> Attempt) returns (r: Result<Response, Error>, waits: seq<nat>)
    ensures r == Retry(url, reply)
    ensures |waits| <= MaxRetries
    ensures forall i :: 0 <= i < |waits| ==> RateLimited(reply(url, i)) && waits[i] == (i + 1) * RateLimitDelay
    ensures |waits| == MaxRetries <==> r == Err(MaxRetriesExceeded)
    ensures |waits| < MaxRetries ==> !RateLimited(reply(url, |waits|))
    ensures |waits| < MaxRetries ==> r == match reply(url, |waits|)
      case TransportError => Err(RequestFailed)
      case Answered(response) => Ok(response)
  {
    waits := [];
    var i := 0;
    while i < MaxRetries
      invariant 0 <= i <= MaxRetries && |waits| == i
      invariant forall j :: 0 <= j < i ==> RateLimited(reply(url, j)) && waits[j] == (j + 1) * RateLimitDelay
      invariant Retry(url, reply) == RetryFrom(url, reply, i)
    {
      var attempt := reply(url, i);
      if attempt.TransportError? {
        return Err(RequestFailed), waits;
      }
      if attempt.response.status == TooManyRequests {
        waits := waits + [(i + 1) * RateLimitDelay];
        i := i + 1;
        continue;
      }
      return Ok(attempt.response), waits;
    }
    r := Err(MaxRetriesExceeded);
  }

  /** 429s are skipped: after a run of them the outcome is that of the
      first attempt after the run. */
  lemma {:induction false} RetrySkipsRateLimited(url: string, reply: (string, nat) -> Attempt, k: nat, i: nat)
    requires k <= i < MaxRetries
    requires forall j :: k <= j < i ==> RateLimited(reply(url, j))
    ensures RetryFrom(url, reply, k) == RetryFrom(url, reply, i)
    decreases i - k
  {
    if k < i {
      RetrySkipsRateLimited(url, reply, k + 1, i);
    }
  }

  /** Three 429s in a row exhaust the retries; a transport error on the first
      attempt fails at once. */
  lemma RetryExamples(url: string, reply: (string, nat) -> Attempt)
    ensures RateLimited(reply(url, 0)) && RateLimited(reply(url, 1)) && RateLimited(reply(url, 2))
      ==> Retry(url, reply) == Err(MaxRetriesExceeded)
    ensures reply(url, 0).TransportError? ==> Retry(url, reply) == Err(RequestFailed)
  {
  }
}
