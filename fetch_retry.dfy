/**
 * `fetchWithRetry`: up to `retries` attempts at one request, returning the
 * first successful response and pausing `delayMs` after every failed
 * attempt, the last one included. The network is an oracle: `attempt(k)` is
 * what the `k`-th attempt (counted from 1) gets.
 */
module FetchRetry {
  import opened Wrappers

  const DefaultRetries := 3
  const DefaultDelayMs := 1000

  /**
   * What one attempt gets: a thrown network error or a response whose status
   * is not ok (both are caught the same way), or an ok response with its body.
   */
  datatype Reply<Body> = Failure | Ok(body: Body)

  /** The body of the first ok reply among attempts `k..retries`, if any. */
  function FirstOk<Body>(attempt: nat -> Reply<Body>, k: nat, retries: int): Option<Body>
    requires k >= 1
    decreases retries - k
  {
    if k > retries then None
    else if attempt(k).Ok? then Some(attempt(k).body)
    else FirstOk(attempt, k + 1, retries)
  }

  /**
   * No response exactly when every attempt from `k` on fails; otherwise the
   * body of an ok attempt with only failures before it.
   */
  lemma {:induction false} FirstOkMeans<Body>(attempt: nat -> Reply<Body>, k: nat, retries: int)
    requires k >= 1
    ensures FirstOk(attempt, k, retries).None? <==> forall j :: k <= j <= retries ==> attempt(j).Failure?
    ensures FirstOk(attempt, k, retries).Some? ==>
              exists j :: k <= j <= retries && attempt(j) == Ok(FirstOk(attempt, k, retries).value)
                          && forall i :: k <= i < j ==> attempt(i).Failure?
    decreases retries - k
  {
    if k <= retries && attempt(k).Failure? {
      FirstOkMeans(attempt, k + 1, retries);
      var r := FirstOk(attempt, k, retries);
      if r.Some? {
        var j :| k + 1 <= j <= retries && attempt(j) == Ok(r.value)
                 && forall i :: k + 1 <= i < j ==> attempt(i).Failure?;
        assert forall i :: k <= i < j ==> attempt(i).Failure?;
      }
    }
  }

  /** How many attempts are made: up to and including the first ok one, or all of them. */
  function AttemptsMade<Body>(attempt: nat -> Reply<Body>, k: nat, retries: int): (n: nat)
    requires k >= 1
    decreases retries - k
  {
    if k > retries then 0
    else if attempt(k).Ok? then 1
    else 1 + AttemptsMade(attempt, k + 1, retries)
  }

  /**
   * The loop of `fetchWithRetry(url, retries, delayMs)`. Returns the response
   * (`None` is the `undefined` of a run where every attempt failed), the
   * number of attempts made and the total time spent waiting.
   */
  method FetchWithRetry<Body>(attempt: nat -> Reply<Body>, retries: int, delayMs: nat)
    returns (response: Option<Body>, attempts: nat, waitedMs: nat)
    ensures response == FirstOk(attempt, 1, retries)
    ensures attempts == AttemptsMade(attempt, 1, retries)
    ensures attempts <= if retries < 0 then 0 else retries
    ensures response.Some? ==> attempts >= 1 && attempt(attempts) == Ok(response.value)
    ensures response.None? ==> attempts == (if retries < 0 then 0 else retries)
    ensures waitedMs == (if response.Some? then attempts - 1 else attempts) * delayMs
  {
    attempts := 0;
    waitedMs := 0;
    var k := 1;
    while k <= retries
      invariant 1 <= k && (retries >= 0 ==> k <= retries + 1)
      invariant attempts == k - 1 && waitedMs == attempts * delayMs
      invariant forall j :: 1 <= j < k ==> attempt(j).Failure?
      invariant FirstOk(attempt, 1, retries) == FirstOk(attempt, k, retries)
      invariant AttemptsMade(attempt, 1, retries) == attempts + AttemptsMade(attempt, k, retries)
      decreases retries - k
    {
      attempts := attempts + 1;
      var reply := attempt(k);
      if reply.Ok? {
        assert waitedMs == (attempts - 1) * delayMs;
        return Some(reply.body), attempts, waitedMs;
      }
      waitedMs := waitedMs + delayMs;
      OnePauseMore(attempts - 1, delayMs);
      k := k + 1;
    }
    response := None;
  }

  /** One more failed attempt adds one pause. */
  lemma OnePauseMore(failed: nat, delayMs: nat)
    ensures (failed + 1) * delayMs == failed * delayMs + delayMs
  {
  }

  /** With the defaults, at most three attempts, and no response exactly when all three fail. */
  lemma DefaultBounds<Body>(attempt: nat -> Reply<Body>)
    ensures AttemptsMade(attempt, 1, DefaultRetries) <= 3
    ensures FirstOk(attempt, 1, DefaultRetries).None? <==>
              attempt(1).Failure? && attempt(2).Failure? && attempt(3).Failure?
  {
    assert AttemptsMade(attempt, 4, DefaultRetries) == 0;
  }
}
