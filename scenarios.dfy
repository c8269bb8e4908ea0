/**
 * Concrete runs of one request through the retry loop, with the transport
 * fixed to a given sequence of outcomes.
 */
module Scenarios {
  import opened Http
  import opened RetryPolicy
  import opened AsyncRequests

  const ServerError := Rejected(OtherRequestException(Some(Response(503, ""))))
  const NotFound := Rejected(OtherRequestException(Some(Response(404, ""))))
  const Ok := Response(200, "{}")

  /** Two 503 responses, then a 200: two retries, and `onDone` fires after the third attempt. */
  lemma TwoServerErrorsThenSuccess(r: AsyncRequest)
    requires r.tried == 0
    ensures var t: Transport := (h: nat, k: nat) => if k < 2 then ServerError else Fulfilled(Ok);
      && Retried(t(r.handle, 0), 1, 5) && Retried(t(r.handle, 1), 2, 5)
      && Fate(r, t, 5) == Done(r.(tried := 3, markFinished := true), Ok)
  {
    var t: Transport := (h: nat, k: nat) => if k < 2 then ServerError else Fulfilled(Ok);
    FateStopsAt(r, t, 5, 2);
    FateLastAttempt(r, t, 5);
  }

  /** A 404 is not retried: `onFail` fires after the first attempt. */
  lemma ClientErrorIsFinal(r: AsyncRequest)
    requires r.tried == 0
    ensures var t: Transport := (h: nat, k: nat) => NotFound;
      Fate(r, t, 5) == Failed(r.(tried := 1, markFinished := true), NotFound.exception)
  {
    var t: Transport := (h: nat, k: nat) => NotFound;
    FateStopsAt(r, t, 5, 0);
    FateLastAttempt(r, t, 5);
  }

  /**
   * A connection that always fails, with `retryLimits` 2: the second attempt
   * brings the counter to the limit, so `onFail` fires after two attempts,
   * with one retry in between.
   */
  lemma ConnectFailuresExhaustBudget(r: AsyncRequest)
    requires r.tried == 0
    ensures var t: Transport := (h: nat, k: nat) => Rejected(ConnectException);
      && Retried(t(r.handle, 0), 1, 2) && !Retried(t(r.handle, 1), 2, 2)
      && Fate(r, t, 2) == Failed(r.(tried := 2, markFinished := true), ConnectException)
  {
    var t: Transport := (h: nat, k: nat) => Rejected(ConnectException);
    FateStopsAt(r, t, 2, 1);
    FateLastAttempt(r, t, 2);
  }

  /** With no budget at all the first attempt still happens, and nothing is retried. */
  lemma NoBudgetStillOneAttempt(r: AsyncRequest, retryLimits: int)
    requires r.tried == 0 && retryLimits <= 0
    ensures var t: Transport := (h: nat, k: nat) => Rejected(ConnectException);
      Fate(r, t, retryLimits) == Failed(r.(tried := 1, markFinished := true), ConnectException)
  {
    var t: Transport := (h: nat, k: nat) => Rejected(ConnectException);
    FateStopsAt(r, t, retryLimits, 0);
    FateLastAttempt(r, t, retryLimits);
  }
}
