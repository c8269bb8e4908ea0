# AsyncRiotAPI retrying batch dispatcher, in Dafny

This project models the batch dispatcher `AsyncRiotAPI` of the RiotQuest PHP
client for the Riot Games API, and proves properties of the model.

- `add` queues a request. It adds the `X-Riot-Token` and `User-Agent` headers.
- `exec` runs rounds until the queue is empty. Each round hands the whole
  queue to one Guzzle pool. A success handler or a failure handler then
  settles each transfer. The round ends by dropping the finished records.
- `shouldRetry` decides whether a failure goes back into the next round.
- `call` is `add` followed by `exec`.

Modules:

- `Http` (`http.dfy`): requests, responses and the two kinds of request
  exception, as values. It also holds PSR-7 `withAddedHeader` and `getHeader`.
- `RetryPolicy` (`retry_policy.dfy`): `shouldRetry`, and the attempt budget
  `max(1, retryLimits)` that follows from it.
- `AsyncRequests` (`async_request.dfy`): the per-request record.
  - `Attempt` is what the fulfilled or rejected handler does to a record for one settled attempt.
  - `Fate` is the one terminal callback a record ends with, once it has been dispatched round after round.
  - `Unfinished` is the `array_filter` of `clearFinishedRequests`.
  - `RetryEvents` are the events one round publishes.
  - `Of` projects a callback log onto one request.
- `AsyncRiotApi` (`async_riot_api.dfy`): the class `AsyncRiotApi`, with the
  source's fields. Around it sit the specification functions for a round:
  - `HandleInOrder`: the handlers applied in the order the transfers settle.
  - `SettleAll`: every record of the round after its attempt.
  - `AfterRounds`: `exec` after `k` rounds.

  The lemmas tie these together. `Exec` is proved against them.
- `Scenarios` (`scenarios.dfy`): concrete runs of one request against fixed
  transports.

The environment is passed in as parameters:

- The transport is a function `Transport` from (request identity, attempt
  number) to an `Outcome`: fulfilled with a response, or rejected with an
  exception.
- The pool may settle the transfers of a round in any order. That order is a
  parameter `order(round, n)`, which must list each of the `n` transfers
  exactly once.
- PHP object identity of a request is modelled by a `handle` number that
  `Add` hands out.
- The terminal callbacks that fire are appended to the field `callbacks` as
  `Done` or `Failed` entries.
- The retry events go to the ghost field `retryEvents`.

The main result is `AsyncRiotApi.AsyncRiotApi.Exec`:

- `exec` terminates.
- Every request queued beforehand fires exactly one terminal callback.
- That callback is its `Fate`: the same request, tried between 1 and
  `max(1, retryLimits)` times.
- No other request fires anything.
- Every retry event announces an attempt from the second up to the budget.
- The retry events are exactly those the rounds publish: one per retry of each
  queued request, so `Fate(x).record.tried - 1` events for request `x`.
- The queue is empty afterwards, and `isExecuting` is false.

All of this holds whatever order the pool settles the transfers in.

Two facts about the code shape the model:

- **Attempt budget.** The code bumps `tried` before it asks `shouldRetry`
  (`src/AsyncRiotAPI.php:160-163`). So a request gets at most
  `max(1, retryLimits)` attempts: `retryLimits` counts attempts, not retries.
  A connection that always fails, with `retryLimits = 2`, is attempted twice,
  with one retry between (`Scenarios.ConnectFailuresExhaustBudget`).
- **One pool per round.** Each round puts the whole queue into one pool
  (`src/AsyncRiotAPI.php:139-168`). The 30 of `CONCURRENCY_ASYNC` is only
  Guzzle's cap on transfers in flight, so the model does not split a round into batches of 30.

## Model

| member | source | states |
|---|---|---|
| `RetryPolicy.ShouldRetry` | src/AsyncRiotAPI.php:57-73 | Never retries once `tried >= retryLimits`, whatever the failure. Below the budget: a connection failure is retried; a failure carrying a response is retried exactly when its status is at least 500; anything else is final. |
| `RetryPolicy.AttemptBudget` | src/AsyncRiotAPI.php:160-163 | The budget is `max(1, retryLimits)`: at least one attempt, and at least `retryLimits`. |
| `Http.WithAddedHeader` | src/AsyncRiotAPI.php:121-122 | `withAddedHeader` keeps verb, URI and body. It adds exactly one value at the end of that header's values and changes no other header. |
| `AsyncRiotApi.WithRiotHeaders` | src/AsyncRiotAPI.php:120-122 | The stored wire request is the descriptor's request with `X-Riot-Token = apiKey` and then `User-Agent = userAgentString` appended. Every other header, the verb, the URI and the body are unchanged. |
| `AsyncRiotApi.AsyncRiotApi.constructor` | src/AsyncRiotAPI.php:31-49 | Stores the API key. Defaults: `retryLimits` 5, user agent "OP.GG API Client". Not executing, empty queue, nothing fired. |
| `AsyncRiotApi.AsyncRiotApi.Add` | src/AsyncRiotAPI.php:114-126 | While `exec` runs, refuses with `Busy` and changes nothing. Otherwise appends exactly one record at the end and leaves earlier records untouched. The record is untried and unfinished, with the given callbacks and the two headers added. |
| `AsyncRequests.Attempt` | src/AsyncRiotAPI.php:154-167 | One handled attempt bumps `tried` by exactly 1 and changes nothing else except `markFinished`. Success finishes the record and fires `onDone` with the response. Failure finishes it and fires `onFail` exactly when `shouldRetry` says no; otherwise the record stays pending and fires nothing. |
| `AsyncRiotApi.AsyncRiotApi.OnFulfilled` | src/AsyncRiotAPI.php:154-158 | The fulfilled handler: the record at `index` becomes what `Attempt` gives for a success, and its one callback is appended to the log. |
| `AsyncRiotApi.AsyncRiotApi.OnRejected` | src/AsyncRiotAPI.php:159-167 | The rejected handler: the record at `index` becomes what `Attempt` gives for the failure, and the log grows by what it fired (nothing when retried). |
| `AsyncRiotApi.AsyncRiotApi.Settle` | src/AsyncRiotAPI.php:153-167 | The pool passes each settled transfer to the handler for its outcome. The net effect is `Attempt` on that record. |
| `AsyncRequests.Fate` | src/AsyncRiotAPI.php:138-174 | Dispatching a record round after round ends in one terminal callback. It belongs to the same request (descriptor, wire request and callbacks unchanged) and is marked finished. It comes after at least one more attempt and never past the budget. |
| `AsyncRequests.FateWithinBudget` | src/AsyncRiotAPI.php:155-163 | A fresh record fires after between 1 and `max(1, retryLimits)` attempts. |
| `AsyncRequests.FateStep` | src/AsyncRiotAPI.php:154-173 | One handled attempt either fires the record's fate or leaves a pending record with the same fate. |
| `AsyncRequests.FateRetriesBefore` | src/AsyncRiotAPI.php:159-167 | Every attempt before the last was a failure that `shouldRetry` sent round again. |
| `AsyncRequests.FateLastAttempt` | src/AsyncRiotAPI.php:154-167 | The last attempt was not retried. The callback is `onDone` with its response if it succeeded, and `onFail` with its exception if it failed. |
| `AsyncRequests.FateStopsAt` | src/AsyncRiotAPI.php:159-167 | Conversely, if attempts up to `k` were retried failures and attempt `k + 1` is not retried, the record fires after exactly `k + 1` attempts. |
| `AsyncRequests.UnfinishedMembers` | src/AsyncRiotAPI.php:180-184 | `clearFinishedRequests` keeps exactly the records that are not finished. |
| `AsyncRequests.UnfinishedConcat` | src/AsyncRiotAPI.php:180-184 | The filter works piecewise over the list, so kept records keep their relative order. |
| `AsyncRequests.UnfinishedKeepsPending` | src/AsyncRiotAPI.php:180-184 | A list with nothing finished in it is kept as it is. |
| `AsyncRequests.UnfinishedDistinct` | src/AsyncRiotAPI.php:180-184 | Filtering never makes two records share an identity. |
| `AsyncRiotApi.AsyncRiotApi.ClearFinishedRequests` | src/AsyncRiotAPI.php:180-184 | The queue becomes its unfinished records, in order. |
| `AsyncRequests.RetryEventsOne` | src/AsyncRiotAPI.php:142-150 | A record publishes one event, `RetryEvent(tried + 1, request)`, exactly when it has been tried before, and none otherwise. |
| `AsyncRequests.RetryEventsConcat` | src/AsyncRiotAPI.php:140-152 | The events of a list are the events of its first part followed by those of the rest. With `RetryEventsOne` this fixes the content, the count (one per record tried before) and the queue order of a round's events. |
| `AsyncRequests.RetryEventsMembers` | src/AsyncRiotAPI.php:143-150 | A round publishes a retry event exactly for each record tried before. The event carries `tried + 1` and the record's unchanged wire request. |
| `AsyncRiotApi.AsyncRiotApi.PublishRetryEvents` | src/AsyncRiotAPI.php:140-152 | As the pool starts its transfers, it appends that round's retry events to the event log, in queue order. |
| `AsyncRiotApi.UniformRetryEvents` | src/AsyncRiotAPI.php:143-150 | In a round where every record has been tried `round` times, every retry event announces attempt `round + 1`, and there are none in the first round. |
| `AsyncRiotApi.AsyncRiotApi.SettleRound` | src/AsyncRiotAPI.php:153-171 | Handling the transfers one at a time, in settle order, leaves the queue and the log as `HandleInOrder` says. |
| `AsyncRiotApi.AsyncRiotApi.RunPool` | src/AsyncRiotAPI.php:139-171 | One pool: the retry events of the round, then every transfer handled in settle order. |
| `AsyncRiotApi.SettleAll` | src/AsyncRiotAPI.php:153-167 | The records of a round once each has settled: same length, and each record is what its own transfer, handled by its handler, makes of it. |
| `AsyncRiotApi.HandleInOrderSettles` | src/AsyncRiotAPI.php:139-171 | When every transfer settles exactly once, in whatever order, each record ends in its own settled state. Each fires exactly what its handler fired, and no other request fires anything. |
| `AsyncRiotApi.NextRound` | src/AsyncRiotAPI.php:138-174 | A round followed by `clearFinishedRequests` keeps the loop invariant. Records that fired leave the queue, having fired their fate. The rest stay, with the same fate, one more attempt and room left in the budget. |
| `AsyncRiotApi.AfterRoundsPending` | src/AsyncRiotAPI.php:133-174 | After any number of rounds the loop invariant holds, and every retry event so far announced an attempt from the second up to the budget. |
| `AsyncRequests.RetriesLeftStep` | src/AsyncRiotAPI.php:143-167 | One dispatch of a pending record publishes one retry event if it is not the first attempt. The record it leaves pending, if any, owes the rest of its events. |
| `AsyncRiotApi.RoundRetries` | src/AsyncRiotAPI.php:139-173 | Over one round and its filter, the events published plus those the survivors still owe equal what the round's records owed. |
| `AsyncRiotApi.AfterRoundsStep` | src/AsyncRiotAPI.php:138-174 | Round `j + 1` leaves the unfinished records of the settled round, whatever the settle order, and appends that round's retry events. |
| `AsyncRiotApi.AfterRoundsRetries` | src/AsyncRiotAPI.php:138-174 | After any number of rounds, events published plus events still owed by the pending records equal the retries of the starting list. |
| `AsyncRiotApi.AfterRoundsRetryCount` | src/AsyncRiotAPI.php:133-178 | Once the queue drains, the run has published exactly one retry event per retry of each queued request. |
| `AsyncRiotApi.AfterRoundsShape` | src/AsyncRiotAPI.php:138-174 | Before each round, identities are distinct. If the queue is not empty, the round number is below the budget, which bounds the loop. |
| `AsyncRiotApi.AfterRoundsDrained` | src/AsyncRiotAPI.php:133-178 | Once the queue has drained, every queued request has fired exactly its fate, and nothing else has fired. |
| `AsyncRiotApi.AsyncRiotApi.OneRound` | src/AsyncRiotAPI.php:138-174 | One pass of the loop: a pool, then `clearFinishedRequests`. It moves the state from round `k` to round `k + 1`, and it only runs below the budget. |
| `AsyncRiotApi.AsyncRiotApi.RunRounds` | src/AsyncRiotAPI.php:138-174 | The loop terminates within the budget, with the queue empty and the logs as `AfterRounds` says. |
| `AsyncRiotApi.AsyncRiotApi.Clear` | src/AsyncRiotAPI.php:186-188 | Empties the queue. |
| `AsyncRiotApi.AsyncRiotApi.Exec` | src/AsyncRiotAPI.php:133-178 | Terminates, after `rounds` rounds. Every request queued beforehand fires exactly one callback, its fate, and no other request fires any. The new callbacks and retry events are exactly those of `AfterRounds` after `rounds` rounds, which leaves nothing pending. There is one retry event per retry of each queued request (`RetriesLeftAll` of the queue). Every event is for an attempt from 2 up to `max(1, retryLimits)`. Afterwards the queue is empty and `isExecuting` is false. An empty queue changes nothing. |
| `AsyncRiotApi.AsyncRiotApi.Call` | src/AsyncRiotAPI.php:88-98 | While `exec` runs, refuses and changes nothing. Otherwise the new request runs with whatever was queued before. The result is its fate: `Success` with the response if `onDone` fired, `Failure` with the exception if `onFail` fired. Every request of the run fires its own fate, and no other request fires anything. The new callbacks and retry events are exactly those of `AfterRounds` over the queue plus the new request: one event per retry of each. |
| `Scenarios.TwoServerErrorsThenSuccess` | src/AsyncRiotAPI.php:154-167 | 503, 503, then 200 with `retryLimits` 5: both failures are retried, and `onDone` fires after three attempts. |
| `Scenarios.ClientErrorIsFinal` | src/AsyncRiotAPI.php:62-72 | A 404 is not retried, and `onFail` fires after one attempt. |
| `Scenarios.ConnectFailuresExhaustBudget` | src/AsyncRiotAPI.php:58-64 | Connection failures with `retryLimits` 2: one retry, then `onFail` after two attempts. |
| `Scenarios.NoBudgetStillOneAttempt` | src/AsyncRiotAPI.php:155-163 | With `retryLimits <= 0` the first attempt still happens, and nothing is retried. |

## Left out

- Guzzle's `Client`, `Pool`, promises, `requestTimeout` (a float), `getNewGuzzleClient` and the `CONCURRENCY_ASYNC` in-flight cap are not modelled; these are transport concurrency in a foreign library. They are replaced by the `Transport` outcome function and the settle-order parameter of `Exec`.
- The transport decides which responses arrive as successes. Guzzle's mapping of 4xx and 5xx statuses to `RequestException` is not modelled.
- A rejection that is not a `RequestException` is not modelled. In the source it would be a type error in the handler.
- `EventDispatcher::fire` is a process-wide hook. It is modelled only as the ghost event log `retryEvents`.
- How retry events interleave with settled transfers is not modelled. The pool starts transfers lazily, up to 30 at a time. The model publishes a round's events, in queue order, before it settles the round.
- `AsyncRequest::getPromise`, and the internals of `onDone` and `onFail`, are not modelled: the class is not part of this model. This covers the JsonMapper mapping of responses and the fallback when no `onFail` is given. That fallback throws a `RequestFailedException` (documented at `src/AsyncRiotAPI.php:110`), which, like the re-raise of `call`, escapes from the middle of `exec`; for such a request the source does not reach the "exactly one callback each" result that `Exec` states. A fired callback is modelled as a `Done` or `Failed` entry in the `callbacks` log, carrying the record, the raw response or the exception.
- `Call`: in the source, the re-raising `onFail` throws out of the middle of `exec`, leaving `isExecuting` set and the queue uncleared. The model runs the batch to the end and returns `Failure(RequestFailed(e))` instead. `Call` returns the raw response, not a mapped DTO.
- `Add` returns the new request's handle instead of `$this`. The `UnknownException` it throws while `exec` runs is the `Busy` failure.
- Callbacks that re-enter the same instance (`add`, `exec` or `clear` from inside a handler) are not modelled: the callbacks are opaque identities.
- Header names are compared exactly. PSR-7's case-insensitive header names are not modelled.
- PHP arrays keep their keys through `array_filter` and `array_map`, and the pool hands those keys back as `$index`. The model renumbers the filtered list instead. This is equivalent, because each handler is addressed by the position its transfer had in the list given to the pool.
- `AsyncRequests.Unfinished`: its own contract only bounds the length. Which records it keeps, and in what order, is stated by `UnfinishedMembers` and `UnfinishedConcat`.
- `AsyncRequests.RetryEvents`: its own contract only bounds the length. Its content, count and order are stated by `RetryEventsOne` and `RetryEventsConcat`, and its membership by `RetryEventsMembers`.
- `AsyncRequests.Dispatch`: it has no contract of its own. It is one transfer (`src/AsyncRiotAPI.php:150-167`): the transport's outcome for the record's next attempt, handed to `Attempt`. Its properties are stated by `Attempt`, `FateStep` and `HandleInOrderSettles`.
- `AsyncRiotApi.AfterRounds`: it has no contract of its own. It is the state of the loop of `exec` (`src/AsyncRiotAPI.php:138-174`) after `k` rounds. Its properties are stated by `AfterRoundsPending`, `AfterRoundsShape` and `AfterRoundsDrained`, and `RunRounds` is proved equal to it.
- `AsyncRequests.RetriesLeft`: it has no contract of its own. It counts the retry events a pending record still owes: `Fate(r).record.tried - max(r.tried, 1)`, which is its number of retries when it has never been tried. `RetriesLeftAll` sums it over a list. `RetriesLeftStep` and `AfterRoundsRetryCount` state what it means.
- `AsyncRiotApi.HandleInOrder`: it is total, and an index the pool never hands out settles nothing. `SettleRound` only accepts indices into the queue, and `HandleInOrderSettles` requires each index to appear exactly once.
- `src/Dto/Spectator/CurrentGameParticipant.php` is a data holder with no behaviour, and `src/RequestMethod/LolStaticData/ProfileIcons.php` only builds a URL and maps JSON. Neither is part of this model.
