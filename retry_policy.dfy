/**
 * The dispatcher's retry decision (`shouldRetry`) and the attempt budget it
 * implies.
 */
module RetryPolicy {
  import opened Http

  /**
   * Whether a request that has now been tried `tried` times and failed with
   * `e` goes back into the next round. The budget is checked first, whatever
   * the failure; below it a connection failure is retried, a failure that
   * carries a response is retried exactly when its status is a 5xx-or-above,
   * and any other failure is final.
   */
  function ShouldRetry(tried: int, retryLimits: int, e: RequestException): (retry: bool)
    ensures tried >= retryLimits ==> !retry
    ensures tried < retryLimits && e.ConnectException? ==> retry
    ensures tried < retryLimits && e.OtherRequestException? ==>
      (retry <==> e.response.Some? && e.response.value.status >= 500)
    ensures retry ==> tried < retryLimits
  {
    if tried >= retryLimits then false
    else match e
      case ConnectException => true
      case OtherRequestException(response) =>
        response.Some? && response.value.status >= 500
  }

  /**
   * The most attempts a request can receive: `shouldRetry` is asked only
   * after the attempt counter has been bumped, so even a budget of zero or
   * less allows the first attempt.
   */
  function AttemptBudget(retryLimits: int): (b: nat)
    ensures b >= 1 && b >= retryLimits
    ensures b == 1 || b == retryLimits
  {
    if retryLimits < 1 then 1 else retryLimits
  }
}
