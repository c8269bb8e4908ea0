/**
 * The batch dispatcher `AsyncRiotAPI`: a list of pending requests that `exec`
 * dispatches round after round, handling each settled transfer on its own,
 * until every request has fired its one terminal callback.
 */
module AsyncRiotApi {
  import opened Http
  import opened RetryPolicy
  import opened AsyncRequests

  datatype ApiError = Busy | RequestFailed(exception: RequestException)

  datatype Result<+T> = Success(value: T) | Failure(error: ApiError)

  const RiotTokenHeader := "X-Riot-Token"
  const UserAgentHeader := "User-Agent"
  const DefaultUserAgent := "OP.GG API Client"
  const DefaultRetryLimits := 5

  /**
   * The wire request `add` stores: the descriptor's request with the API key
   * and the user agent added as two more header values, at the end, and
   * nothing else changed.
   */
  function WithRiotHeaders(req: Request, apiKey: string, userAgent: string): (r: Request)
    ensures r.verb == req.verb && r.uri == req.uri && r.body == req.body
    ensures r.headers == req.headers + [(RiotTokenHeader, apiKey), (UserAgentHeader, userAgent)]
    ensures forall name :: (HeaderValues(r.headers, name) ==
      HeaderValues(req.headers, name)
      + (if name == RiotTokenHeader then [apiKey] else [])
      + (if name == UserAgentHeader then [userAgent] else []))
  {
    WithAddedHeader(WithAddedHeader(req, RiotTokenHeader, apiKey), UserAgentHeader, userAgent)
  }

  /**
   * The order in which the transport settles the `n` transfers of one round:
   * every one of them exactly once.
   */
  ghost predicate IsCompletionOrder(ord: seq<nat>, n: nat)
  {
    && |ord| == n
    && (forall j :: 0 <= j < n ==> ord[j] < n)
    && (forall i, j :: 0 <= i < j < n ==> ord[i] != ord[j])
    && (forall x :: 0 <= x < n ==> x in ord)
  }

  /** Every record of a round after its attempt has been handled. */
  ghost function SettleAll(rs: seq<AsyncRequest>, transport: Transport, retryLimits: int): (settled: seq<AsyncRequest>)
    ensures |settled| == |rs|
    ensures forall y :: 0 <= y < |rs| ==> settled[y] == Dispatch(rs[y], transport, retryLimits).record
  {
    seq(|rs|, y requires 0 <= y < |rs| => Dispatch(rs[y], transport, retryLimits).record)
  }

  /**
   * `log` holds what one round fired: for each record of the round the
   * callbacks its handler fired, and nothing for any other request.
   */
  ghost predicate RoundSettled(rs: seq<AsyncRequest>, log: seq<Completion>, transport: Transport, retryLimits: int)
  {
    && (forall y :: 0 <= y < |rs| ==> Of(log, rs[y].handle) == Dispatch(rs[y], transport, retryLimits).fired)
    && (forall h :: h !in HandlesOf(rs) ==> Of(log, h) == [])
  }

  /**
   * The state of `exec` at the start of a round, relative to the list `all`
   * it started with: the records still pending have all been tried `round`
   * times and sit below the budget; they end as their originals would; a
   * request no longer pending has fired exactly its fate and nothing else has
   * fired.
   */
  ghost predicate Pending(all: seq<AsyncRequest>, rs: seq<AsyncRequest>, log: seq<Completion>,
                          transport: Transport, retryLimits: int, round: nat)
  {
    && PendingShape(all, rs, retryLimits, round)
    && PendingFates(all, rs, transport, retryLimits)
    && PendingLog(all, rs, log, transport, retryLimits)
  }

  ghost predicate PendingShape(all: seq<AsyncRequest>, rs: seq<AsyncRequest>, retryLimits: int, round: nat)
  {
    && HandlesDistinct(all) && HandlesDistinct(rs)
    && HandlesOf(rs) <= HandlesOf(all)
    && (forall y :: 0 <= y < |rs| ==> !rs[y].markFinished && rs[y].tried == round)
    && (rs != [] ==> round < AttemptBudget(retryLimits))
  }

  ghost predicate PendingFates(all: seq<AsyncRequest>, rs: seq<AsyncRequest>, transport: Transport, retryLimits: int)
  {
    forall y, x :: 0 <= y < |rs| && 0 <= x < |all| && rs[y].handle == all[x].handle ==>
      Fate(rs[y], transport, retryLimits) == Fate(all[x], transport, retryLimits)
  }

  ghost predicate PendingLog(all: seq<AsyncRequest>, rs: seq<AsyncRequest>, log: seq<Completion>,
                             transport: Transport, retryLimits: int)
  {
    && (forall x :: 0 <= x < |all| ==>
          Of(log, all[x].handle) ==
            if all[x].handle in HandlesOf(rs) then [] else [Fate(all[x], transport, retryLimits)])
    && (forall h :: h !in HandlesOf(all) ==> Of(log, h) == [])
  }

  /** The list `add` builds, before any round: nothing has fired yet. */
  lemma StartPending(all: seq<AsyncRequest>, transport: Transport, retryLimits: int)
    requires HandlesDistinct(all)
    requires forall y :: 0 <= y < |all| ==> !all[y].markFinished && all[y].tried == 0
    ensures Pending(all, all, [], transport, retryLimits, 0)
  {
    forall x | 0 <= x < |all| ensures all[x].handle in HandlesOf(all) {
      assert all[x] in all;
    }
  }

  /** When the list has drained, every request of `all` has fired exactly its fate. */
  lemma FinishPending(all: seq<AsyncRequest>, log: seq<Completion>, transport: Transport, retryLimits: int)
    requires PendingLog(all, [], log, transport, retryLimits)
    ensures forall x :: 0 <= x < |all| ==> Of(log, all[x].handle) == [Fate(all[x], transport, retryLimits)]
    ensures forall h :: h !in HandlesOf(all) ==> Of(log, h) == []
  {
  }

  /** A record left pending after a round: which record of the round it was. */
  lemma Survivor(rs: seq<AsyncRequest>, transport: Transport, retryLimits: int, v: AsyncRequest) returns (y: nat)
    requires v in Unfinished(SettleAll(rs, transport, retryLimits))
    ensures y < |rs| && SettleAll(rs, transport, retryLimits)[y] == v && !v.markFinished
    ensures v.handle == rs[y].handle
  {
    var settled := SettleAll(rs, transport, retryLimits);
    UnfinishedMembers(settled);
    assert v in settled;
    y :| 0 <= y < |settled| && settled[y] == v;
  }

  /** Handling a round keeps identities, and filtering afterwards keeps them apart. */
  lemma NextShape(all: seq<AsyncRequest>, rs: seq<AsyncRequest>, transport: Transport, retryLimits: int, round: nat)
    requires PendingShape(all, rs, retryLimits, round)
    ensures var settled := SettleAll(rs, transport, retryLimits);
      HandlesDistinct(settled) && HandlesOf(Unfinished(settled)) <= HandlesOf(rs)
    ensures PendingShape(all, Unfinished(SettleAll(rs, transport, retryLimits)), retryLimits, round + 1)
  {
    var settled := SettleAll(rs, transport, retryLimits);
    var next := Unfinished(settled);
    assert HandlesDistinct(settled) by {
      forall i, j | 0 <= i < j < |settled| ensures settled[i].handle != settled[j].handle {
        assert settled[i].handle == rs[i].handle && settled[j].handle == rs[j].handle;
      }
    }
    UnfinishedDistinct(settled);
    forall h | h in HandlesOf(next) ensures h in HandlesOf(rs) {
      var v :| v in next && v.handle == h;
      var y := Survivor(rs, transport, retryLimits, v);
      assert rs[y] in rs;
    }
    forall u | 0 <= u < |next|
      ensures !next[u].markFinished && next[u].tried == round + 1 && round + 1 < AttemptBudget(retryLimits)
    {
      assert next[u] in next;
      var y := Survivor(rs, transport, retryLimits, next[u]);
    }
    if next != [] {
      assert next[0].tried == round + 1;
    }
  }

  /** The records left pending after a round end as their originals would. */
  lemma NextFates(all: seq<AsyncRequest>, rs: seq<AsyncRequest>, transport: Transport, retryLimits: int)
    requires PendingFates(all, rs, transport, retryLimits)
    ensures PendingFates(all, Unfinished(SettleAll(rs, transport, retryLimits)), transport, retryLimits)
  {
    var next := Unfinished(SettleAll(rs, transport, retryLimits));
    forall u, x | 0 <= u < |next| && 0 <= x < |all| && next[u].handle == all[x].handle
      ensures Fate(next[u], transport, retryLimits) == Fate(all[x], transport, retryLimits)
    {
      assert next[u] in next;
      var y := Survivor(rs, transport, retryLimits, next[u]);
      FateStep(rs[y], transport, retryLimits);
    }
  }

  /** Where a handle occurs in a list. */
  lemma IndexOfHandle(rs: seq<AsyncRequest>, h: nat) returns (y: nat)
    requires h in HandlesOf(rs)
    ensures y < |rs| && rs[y].handle == h
  {
    var r :| r in rs && r.handle == h;
    y :| 0 <= y < |rs| && rs[y] == r;
  }

  /** What a record of the round has fired once the round is over: nothing while it is pending, else its fate. */
  lemma {:induction false} NextLogOne(rs: seq<AsyncRequest>, log: seq<Completion>, roundLog: seq<Completion>,
                   transport: Transport, retryLimits: int, y: nat)
    requires y < |rs| && !rs[y].markFinished && HandlesDistinct(SettleAll(rs, transport, retryLimits))
    requires Of(log, rs[y].handle) == []
    requires Of(roundLog, rs[y].handle) == Dispatch(rs[y], transport, retryLimits).fired
    ensures Of(log + roundLog, rs[y].handle) ==
      if rs[y].handle in HandlesOf(Unfinished(SettleAll(rs, transport, retryLimits))) then []
      else [Fate(rs[y], transport, retryLimits)]
  {
    var settled := SettleAll(rs, transport, retryLimits);
    var next := Unfinished(settled);
    var h := rs[y].handle;
    UnfinishedMembers(settled);
    OfConcat(log, roundLog, h);
    FateStep(rs[y], transport, retryLimits);
    if settled[y].markFinished {
      forall v | v in next ensures v.handle != h {
        var z := Survivor(rs, transport, retryLimits, v);
        assert z != y;
      }
    } else {
      assert settled[y] in next;
    }
  }

  /** A round's log adds, for each request of the round that finished, its fate, and nothing else. */
  lemma NextLog(all: seq<AsyncRequest>, rs: seq<AsyncRequest>, log: seq<Completion>, roundLog: seq<Completion>,
                transport: Transport, retryLimits: int)
    requires HandlesDistinct(SettleAll(rs, transport, retryLimits))
    requires HandlesOf(Unfinished(SettleAll(rs, transport, retryLimits))) <= HandlesOf(rs)
    requires HandlesOf(rs) <= HandlesOf(all)
    requires forall y :: 0 <= y < |rs| ==> !rs[y].markFinished
    requires PendingFates(all, rs, transport, retryLimits)
    requires PendingLog(all, rs, log, transport, retryLimits)
    requires RoundSettled(rs, roundLog, transport, retryLimits)
    ensures PendingLog(all, Unfinished(SettleAll(rs, transport, retryLimits)), log + roundLog, transport, retryLimits)
  {
    var next := Unfinished(SettleAll(rs, transport, retryLimits));
    forall x | 0 <= x < |all|
      ensures Of(log + roundLog, all[x].handle) ==
        if all[x].handle in HandlesOf(next) then [] else [Fate(all[x], transport, retryLimits)]
    {
      var h := all[x].handle;
      if h in HandlesOf(rs) {
        var y := IndexOfHandle(rs, h);
        NextLogOne(rs, log, roundLog, transport, retryLimits, y);
      } else {
        OfConcat(log, roundLog, h);
      }
    }
    forall h | h !in HandlesOf(all) ensures Of(log + roundLog, h) == [] {
      OfConcat(log, roundLog, h);
    }
  }

  /**
   * One round, then `clearFinishedRequests`: requests that fired leave the
   * list having fired their fate, and the rest go on with one more attempt.
   */
  lemma NextRound(all: seq<AsyncRequest>, rs: seq<AsyncRequest>, log: seq<Completion>, roundLog: seq<Completion>,
                  transport: Transport, retryLimits: int, round: nat)
    requires Pending(all, rs, log, transport, retryLimits, round)
    requires RoundSettled(rs, roundLog, transport, retryLimits)
    ensures Pending(all, Unfinished(SettleAll(rs, transport, retryLimits)), log + roundLog, transport, retryLimits, round + 1)
  {
    NextShape(all, rs, transport, retryLimits, round);
    NextFates(all, rs, transport, retryLimits);
    NextLog(all, rs, log, roundLog, transport, retryLimits);
  }

  /** In a round where every record has been tried `round` times, each retry event announces attempt `round + 1`. */
  lemma {:induction false} UniformRetryEvents(rs: seq<AsyncRequest>, round: nat)
    requires forall y :: 0 <= y < |rs| ==> rs[y].tried == round
    ensures forall e :: e in RetryEvents(rs) ==> round >= 1 && e.attempt == round + 1
  {
    if rs != [] {
      UniformRetryEvents(rs[..|rs| - 1], round);
    }
  }

  /**
   * Part way through a round: the records whose transfers (indices in
   * `done`) have been handled hold their settled state and have fired their
   * handlers' callbacks; the others are untouched and have fired nothing,
   * and no other request has fired anything.
   */
  ghost predicate PartlySettled(rs: seq<AsyncRequest>, cur: seq<AsyncRequest>, log: seq<Completion>,
                                done: set<nat>, transport: Transport, retryLimits: int)
  {
    RecordsSettled(rs, cur, done, transport, retryLimits) && LogSettled(rs, log, done, transport, retryLimits)
  }

  ghost predicate RecordsSettled(rs: seq<AsyncRequest>, cur: seq<AsyncRequest>, done: set<nat>,
                                 transport: Transport, retryLimits: int)
  {
    && |cur| == |rs|
    && (forall y :: 0 <= y < |rs| ==>
          cur[y] == if y in done then Dispatch(rs[y], transport, retryLimits).record else rs[y])
  }

  ghost predicate LogSettled(rs: seq<AsyncRequest>, log: seq<Completion>, done: set<nat>,
                             transport: Transport, retryLimits: int)
  {
    && (forall y :: 0 <= y < |rs| ==>
          Of(log, rs[y].handle) == if y in done then Dispatch(rs[y], transport, retryLimits).fired else [])
    && (forall h :: h !in HandlesOf(rs) ==> Of(log, h) == [])
  }

  /** Handling one more transfer of the round. */
  lemma SettleStep(rs: seq<AsyncRequest>, cur: seq<AsyncRequest>, log: seq<Completion>,
                   done: set<nat>, x: nat, transport: Transport, retryLimits: int)
    requires x < |rs| && x !in done && HandlesDistinct(rs)
    requires PartlySettled(rs, cur, log, done, transport, retryLimits)
    ensures cur[x] == rs[x]
    ensures PartlySettled(rs, cur[x := Dispatch(rs[x], transport, retryLimits).record],
      log + Dispatch(rs[x], transport, retryLimits).fired, done + {x}, transport, retryLimits)
  {
    SettleStepRecords(rs, cur, done, x, transport, retryLimits);
    SettleStepLog(rs, log, done, x, transport, retryLimits);
  }

  lemma SettleStepRecords(rs: seq<AsyncRequest>, cur: seq<AsyncRequest>,
                          done: set<nat>, x: nat, transport: Transport, retryLimits: int)
    requires x < |rs| && x !in done
    requires RecordsSettled(rs, cur, done, transport, retryLimits)
    ensures cur[x] == rs[x]
    ensures RecordsSettled(rs, cur[x := Dispatch(rs[x], transport, retryLimits).record], done + {x}, transport, retryLimits)
  {
    var cur' := cur[x := Dispatch(rs[x], transport, retryLimits).record];
    forall y | 0 <= y < |rs|
      ensures cur'[y] == if y in done + {x} then Dispatch(rs[y], transport, retryLimits).record else rs[y]
    {
      if y != x {
        assert cur'[y] == cur[y];
      }
    }
  }

  lemma SettleStepLog(rs: seq<AsyncRequest>, log: seq<Completion>,
                      done: set<nat>, x: nat, transport: Transport, retryLimits: int)
    requires x < |rs| && x !in done && HandlesDistinct(rs)
    requires LogSettled(rs, log, done, transport, retryLimits)
    ensures LogSettled(rs, log + Dispatch(rs[x], transport, retryLimits).fired, done + {x}, transport, retryLimits)
  {
    var log' := log + Dispatch(rs[x], transport, retryLimits).fired;
    SettledOne(rs, x, log, log', transport, retryLimits);
    forall y | 0 <= y < |rs|
      ensures Of(log', rs[y].handle) == if y in done + {x} then Dispatch(rs[y], transport, retryLimits).fired else []
    {
      if y != x {
        assert Of(log', rs[y].handle) == Of(log, rs[y].handle);
      }
    }
  }

  /** Once every transfer of the round has been handled, the round is settled. */
  lemma SettleComplete(rs: seq<AsyncRequest>, cur: seq<AsyncRequest>, log: seq<Completion>,
                       done: set<nat>, transport: Transport, retryLimits: int)
    requires PartlySettled(rs, cur, log, done, transport, retryLimits)
    requires forall y :: 0 <= y < |rs| ==> y in done
    ensures cur == SettleAll(rs, transport, retryLimits)
    ensures RoundSettled(rs, log, transport, retryLimits)
  {
  }

  /** Where the pool's handlers leave the list and what they have fired. */
  datatype RoundState = RoundState(records: seq<AsyncRequest>, log: seq<Completion>)

  /**
   * The pool's handlers applied to the transfers at the indices `ord`, in
   * that order, each to the record as it then stands (an index the pool
   * never hands out settles nothing).
   */
  function HandleInOrder(rs: seq<AsyncRequest>, ord: seq<nat>, transport: Transport, retryLimits: int): (st: RoundState)
    ensures |st.records| == |rs|
  {
    if ord == [] then RoundState(rs, [])
    else
      var prev := HandleInOrder(rs, ord[..|ord| - 1], transport, retryLimits);
      var x := ord[|ord| - 1];
      if x < |prev.records| then
        var s := Dispatch(prev.records[x], transport, retryLimits);
        RoundState(prev.records[x := s.record], prev.log + s.fired)
      else prev
  }

  /** The indices occurring in `ord`. */
  function Indices(ord: seq<nat>): set<nat>
  {
    if ord == [] then {} else Indices(ord[..|ord| - 1]) + {ord[|ord| - 1]}
  }

  lemma {:induction false} IndicesMembers(ord: seq<nat>)
    ensures forall v :: v in Indices(ord) <==> v in ord
  {
    if ord != [] {
      var prefix := ord[..|ord| - 1];
      IndicesMembers(prefix);
      assert ord == prefix + [ord[|ord| - 1]];
    }
  }

  /** After the transfers at the indices `ord` have settled, the round stands as `PartlySettled` describes. */
  lemma {:induction false} HandleInOrderPartly(rs: seq<AsyncRequest>, ord: seq<nat>, transport: Transport, retryLimits: int)
    requires forall k :: 0 <= k < |ord| ==> ord[k] < |rs|
    requires forall i, k :: 0 <= i < k < |ord| ==> ord[i] != ord[k]
    requires HandlesDistinct(rs)
    ensures var st := HandleInOrder(rs, ord, transport, retryLimits);
      PartlySettled(rs, st.records, st.log, Indices(ord), transport, retryLimits)
  {
    if ord != [] {
      var prefix := ord[..|ord| - 1];
      var x := ord[|ord| - 1];
      HandleInOrderPartly(rs, prefix, transport, retryLimits);
      assert x !in Indices(prefix) by {
        IndicesMembers(prefix);
        forall k | 0 <= k < |prefix| ensures prefix[k] != x {
          assert prefix[k] == ord[k];
        }
      }
      var prev := HandleInOrder(rs, prefix, transport, retryLimits);
      SettleStep(rs, prev.records, prev.log, Indices(prefix), x, transport, retryLimits);
    }
  }

  /** Every transfer of the round settles exactly once, so the handlers in any order settle the round. */
  lemma HandleInOrderSettles(rs: seq<AsyncRequest>, ord: seq<nat>, transport: Transport, retryLimits: int)
    requires IsCompletionOrder(ord, |rs|) && HandlesDistinct(rs)
    ensures var st := HandleInOrder(rs, ord, transport, retryLimits);
      st.records == SettleAll(rs, transport, retryLimits) && RoundSettled(rs, st.log, transport, retryLimits)
  {
    HandleInOrderPartly(rs, ord, transport, retryLimits);
    IndicesMembers(ord);
    var st := HandleInOrder(rs, ord, transport, retryLimits);
    SettleComplete(rs, st.records, st.log, Indices(ord), transport, retryLimits);
  }

  /** Where `exec` stands after some rounds: the list, the callbacks fired and the retry events published. */
  datatype ExecState = ExecState(pending: seq<AsyncRequest>, log: seq<Completion>, events: seq<RetryEvent>)

  /**
   * `exec` after `k` rounds starting from the list `all`: each round
   * publishes its retry events, settles its transfers in the order the
   * transport gives, and drops the finished records.
   */
  function AfterRounds(all: seq<AsyncRequest>, order: (nat, nat) -> seq<nat>, transport: Transport,
                       retryLimits: int, k: nat): ExecState
  {
    if k == 0 then ExecState(all, [], [])
    else
      var prev := AfterRounds(all, order, transport, retryLimits, k - 1);
      var st := HandleInOrder(prev.pending, order(k - 1, |prev.pending|), transport, retryLimits);
      ExecState(Unfinished(st.records), prev.log + st.log, prev.events + RetryEvents(prev.pending))
  }

  /**
   * The invariant of `exec`, round after round: `Pending` holds of the
   * list and the log, and every retry event so far announced an attempt
   * from the second up to the budget.
   */
  lemma {:induction false} AfterRoundsPending(all: seq<AsyncRequest>, order: (nat, nat) -> seq<nat>,
                                             transport: Transport, retryLimits: int, k: nat)
    requires HandlesDistinct(all)
    requires forall y :: 0 <= y < |all| ==> !all[y].markFinished && all[y].tried == 0
    requires forall r, n :: IsCompletionOrder(order(r, n), n)
    ensures var st := AfterRounds(all, order, transport, retryLimits, k);
      && Pending(all, st.pending, st.log, transport, retryLimits, k)
      && forall e :: e in st.events ==> 2 <= e.attempt <= AttemptBudget(retryLimits)
  {
    if k == 0 {
      StartPending(all, transport, retryLimits);
    } else {
      AfterRoundsPending(all, order, transport, retryLimits, k - 1);
      var prev := AfterRounds(all, order, transport, retryLimits, k - 1);
      var ord := order(k - 1, |prev.pending|);
      HandleInOrderSettles(prev.pending, ord, transport, retryLimits);
      var st := HandleInOrder(prev.pending, ord, transport, retryLimits);
      NextRound(all, prev.pending, prev.log, st.log, transport, retryLimits, k - 1);
      UniformRetryEvents(prev.pending, k - 1);
      if prev.pending != [] {
        assert prev.pending[0].tried == k - 1;
      }
    }
  }

  /** Settling a list is settling its first part, then its last record. */
  lemma SettleAllSnoc(rs: seq<AsyncRequest>, transport: Transport, retryLimits: int)
    requires rs != []
    ensures SettleAll(rs, transport, retryLimits) ==
      SettleAll(rs[..|rs| - 1], transport, retryLimits) + [Dispatch(rs[|rs| - 1], transport, retryLimits).record]
  {
  }

  /**
   * Over a whole round: the retry events the round publishes, plus those its
   * survivors will still publish, are all those its records had left.
   */
  lemma {:induction false} RoundRetries(rs: seq<AsyncRequest>, transport: Transport, retryLimits: int)
    requires forall y :: 0 <= y < |rs| ==> !rs[y].markFinished
    ensures RetriesLeftAll(rs, transport, retryLimits) ==
      |RetryEvents(rs)| + RetriesLeftAll(Unfinished(SettleAll(rs, transport, retryLimits)), transport, retryLimits)
  {
    if rs != [] {
      var prefix := rs[..|rs| - 1];
      var r := rs[|rs| - 1];
      var d := Dispatch(r, transport, retryLimits).record;
      var sp := SettleAll(prefix, transport, retryLimits);
      RoundRetries(prefix, transport, retryLimits);
      SettleAllSnoc(rs, transport, retryLimits);
      UnfinishedConcat(sp, [d]);
      RetriesLeftAllConcat(Unfinished(sp), Unfinished([d]), transport, retryLimits);
      RetriesLeftAllOne(d, transport, retryLimits);
      RetriesLeftStep(r, transport, retryLimits);
      RetryEventsConcat(prefix, [r]);
      assert rs == prefix + [r];
    }
  }

  /**
   * Where `exec` stands with respect to the retry events of `all`: those
   * published so far plus those the pending records will still publish are
   * all those `all` had to publish.
   */
  ghost predicate RetriesBalance(all: seq<AsyncRequest>, st: ExecState, transport: Transport, retryLimits: int)
  {
    |st.events| + RetriesLeftAll(st.pending, transport, retryLimits) == RetriesLeftAll(all, transport, retryLimits)
  }

  /** One round keeps the balance. */
  lemma BalanceStep(all: seq<AsyncRequest>, prev: ExecState, st: ExecState, transport: Transport, retryLimits: int)
    requires RetriesBalance(all, prev, transport, retryLimits)
    requires forall y :: 0 <= y < |prev.pending| ==> !prev.pending[y].markFinished
    requires st.pending == Unfinished(SettleAll(prev.pending, transport, retryLimits))
    requires st.events == prev.events + RetryEvents(prev.pending)
    ensures RetriesBalance(all, st, transport, retryLimits)
  {
    RoundRetries(prev.pending, transport, retryLimits);
  }

  /**
   * After any number of rounds, the retry events published so far plus those
   * the pending records will still publish are all those the list started with.
   */
  lemma {:induction false} AfterRoundsRetries(all: seq<AsyncRequest>, order: (nat, nat) -> seq<nat>,
                                              transport: Transport, retryLimits: int, k: nat)
    requires HandlesDistinct(all)
    requires forall y :: 0 <= y < |all| ==> !all[y].markFinished && all[y].tried == 0
    requires forall r, n :: IsCompletionOrder(order(r, n), n)
    ensures RetriesBalance(all, AfterRounds(all, order, transport, retryLimits, k), transport, retryLimits)
  {
    if k > 0 {
      AfterRoundsRetries(all, order, transport, retryLimits, k - 1);
      AfterRoundsBalance(all, order, transport, retryLimits, k - 1);
    }
  }

  /** Round `j` keeps the balance of retry events. */
  lemma AfterRoundsBalance(all: seq<AsyncRequest>, order: (nat, nat) -> seq<nat>,
                           transport: Transport, retryLimits: int, j: nat)
    requires HandlesDistinct(all)
    requires forall y :: 0 <= y < |all| ==> !all[y].markFinished && all[y].tried == 0
    requires forall r, n :: IsCompletionOrder(order(r, n), n)
    requires RetriesBalance(all, AfterRounds(all, order, transport, retryLimits, j), transport, retryLimits)
    ensures RetriesBalance(all, AfterRounds(all, order, transport, retryLimits, j + 1), transport, retryLimits)
  {
    AfterRoundsUnfinished(all, order, transport, retryLimits, j);
    AfterRoundsStep(all, order, transport, retryLimits, j);
    BalanceStep(all, AfterRounds(all, order, transport, retryLimits, j),
                AfterRounds(all, order, transport, retryLimits, j + 1), transport, retryLimits);
  }

  /**
   * Round `j` in terms of the settled state of its records, whatever order
   * they settled in: the list it leaves and the events it publishes.
   */
  lemma AfterRoundsStep(all: seq<AsyncRequest>, order: (nat, nat) -> seq<nat>,
                        transport: Transport, retryLimits: int, j: nat)
    requires HandlesDistinct(all)
    requires forall y :: 0 <= y < |all| ==> !all[y].markFinished && all[y].tried == 0
    requires forall r, n :: IsCompletionOrder(order(r, n), n)
    ensures AfterRounds(all, order, transport, retryLimits, j + 1).pending
      == Unfinished(SettleAll(AfterRounds(all, order, transport, retryLimits, j).pending, transport, retryLimits))
    ensures AfterRounds(all, order, transport, retryLimits, j + 1).events
      == AfterRounds(all, order, transport, retryLimits, j).events
       + RetryEvents(AfterRounds(all, order, transport, retryLimits, j).pending)
  {
    AfterRoundsShape(all, order, transport, retryLimits, j);
    var prev := AfterRounds(all, order, transport, retryLimits, j);
    HandleInOrderSettles(prev.pending, order(j, |prev.pending|), transport, retryLimits);
  }

  /** The records pending before a round have not finished. */
  lemma AfterRoundsUnfinished(all: seq<AsyncRequest>, order: (nat, nat) -> seq<nat>,
                              transport: Transport, retryLimits: int, k: nat)
    requires HandlesDistinct(all)
    requires forall y :: 0 <= y < |all| ==> !all[y].markFinished && all[y].tried == 0
    requires forall r, n :: IsCompletionOrder(order(r, n), n)
    ensures forall y :: 0 <= y < |AfterRounds(all, order, transport, retryLimits, k).pending| ==>
      !AfterRounds(all, order, transport, retryLimits, k).pending[y].markFinished
  {
    AfterRoundsPending(all, order, transport, retryLimits, k);
  }

  /** What one more round of `exec` needs: distinct identities, and room left in the budget. */
  lemma AfterRoundsShape(all: seq<AsyncRequest>, order: (nat, nat) -> seq<nat>,
                         transport: Transport, retryLimits: int, k: nat)
    requires HandlesDistinct(all)
    requires forall y :: 0 <= y < |all| ==> !all[y].markFinished && all[y].tried == 0
    requires forall r, n :: IsCompletionOrder(order(r, n), n)
    ensures var st := AfterRounds(all, order, transport, retryLimits, k);
      && HandlesDistinct(st.pending)
      && (st.pending != [] ==> k < AttemptBudget(retryLimits))
      && forall e :: e in st.events ==> 2 <= e.attempt <= AttemptBudget(retryLimits)
  {
    AfterRoundsPending(all, order, transport, retryLimits, k);
  }

  /** Once the list has drained, every request of `all` has fired exactly its fate, and nothing else has fired. */
  lemma AfterRoundsDrained(all: seq<AsyncRequest>, order: (nat, nat) -> seq<nat>,
                           transport: Transport, retryLimits: int, k: nat)
    requires HandlesDistinct(all)
    requires forall y :: 0 <= y < |all| ==> !all[y].markFinished && all[y].tried == 0
    requires forall r, n :: IsCompletionOrder(order(r, n), n)
    requires AfterRounds(all, order, transport, retryLimits, k).pending == []
    ensures var log := AfterRounds(all, order, transport, retryLimits, k).log;
      && (forall x :: 0 <= x < |all| ==> Of(log, all[x].handle) == [Fate(all[x], transport, retryLimits)])
      && (forall h :: h !in HandlesOf(all) ==> Of(log, h) == [])
  {
    AfterRoundsPending(all, order, transport, retryLimits, k);
    FinishPending(all, AfterRounds(all, order, transport, retryLimits, k).log, transport, retryLimits);
  }

  /**
   * Once the list has drained, the retry events published are one per retry
   * of each request of `all`: `Fate(x).record.tried - 1` for a fresh `x`.
   */
  lemma AfterRoundsRetryCount(all: seq<AsyncRequest>, order: (nat, nat) -> seq<nat>,
                              transport: Transport, retryLimits: int, k: nat)
    requires HandlesDistinct(all)
    requires forall y :: 0 <= y < |all| ==> !all[y].markFinished && all[y].tried == 0
    requires forall r, n :: IsCompletionOrder(order(r, n), n)
    requires AfterRounds(all, order, transport, retryLimits, k).pending == []
    ensures |AfterRounds(all, order, transport, retryLimits, k).events| == RetriesLeftAll(all, transport, retryLimits)
  {
    AfterRoundsRetries(all, order, transport, retryLimits, k);
  }

  class AsyncRiotApi {
    // Configuration
    var retryLimits: int
    var userAgentString: string
    const apiKey: string

    /** Whether `exec` is running. */
    var isExecuting: bool
    /** The pending requests. */
    var requests: seq<AsyncRequest>
    /** The identity the next record `add` creates will get. */
    var nextHandle: nat
    /** The terminal callbacks invoked so far, in order. */
    var callbacks: seq<Completion>
    /** The retry events published so far, in order. */
    ghost var retryEvents: seq<RetryEvent>

    /** Outside `exec` every pending request is untried, unfinished and has its own identity. */
    ghost predicate Valid()
      reads this
    {
      && (forall y :: 0 <= y < |requests| ==>
            !requests[y].markFinished && requests[y].tried == 0 && requests[y].handle < nextHandle)
      && HandlesDistinct(requests)
    }

    constructor (apiKey: string)
      ensures this.apiKey == apiKey
      ensures retryLimits == DefaultRetryLimits && userAgentString == DefaultUserAgent
      ensures !isExecuting && requests == [] && nextHandle == 0
      ensures callbacks == [] && retryEvents == []
      ensures Valid()
    {
      this.apiKey := apiKey;
      retryLimits := DefaultRetryLimits;
      userAgentString := DefaultUserAgent;
      isExecuting := false;
      requests := [];
      nextHandle := 0;
      callbacks := [];
      retryEvents := [];
    }

    /**
     * `add`: refused while `exec` runs, leaving the list as it was; otherwise
     * one untried, unfinished record goes at the end of the list, carrying the
     * descriptor's request with the two standard headers added.
     */
    method Add(descriptor: Descriptor, onDone: Callback, onFail: Option<Callback>) returns (result: Result<nat>)
      requires Valid()
      modifies this`requests, this`nextHandle
      ensures Valid()
      ensures isExecuting ==>
        result == Failure(Busy) && requests == old(requests) && nextHandle == old(nextHandle)
      ensures !isExecuting ==>
        && result == Success(old(nextHandle))
        && nextHandle == old(nextHandle) + 1
        && requests == old(requests) + [AsyncRequest(old(nextHandle), descriptor,
             WithRiotHeaders(descriptor.request, apiKey, userAgentString), onDone, onFail, 0, false)]
    {
      if isExecuting {
        return Failure(Busy);
      }
      var request := WithRiotHeaders(descriptor.request, apiKey, userAgentString);
      var record := AsyncRequest(nextHandle, descriptor, request, onDone, onFail, 0, false);
      requests := requests + [record];
      result := Success(nextHandle);
      nextHandle := nextHandle + 1;
    }

    /** The `fulfilled` handler for the transfer at `index`. */
    method OnFulfilled(index: nat, response: Response)
      requires index < |requests|
      modifies this`requests, this`callbacks
      ensures var s := Attempt(old(requests[index]), Fulfilled(response), retryLimits);
        requests == old(requests)[index := s.record] && callbacks == old(callbacks) + s.fired
    {
      var record := requests[index].(tried := requests[index].tried + 1);
      record := record.(markFinished := true);
      requests := requests[index := record];
      callbacks := callbacks + [Done(record, response)];
    }

    /** The `rejected` handler for the transfer at `index`. */
    method OnRejected(index: nat, e: RequestException)
      requires index < |requests|
      modifies this`requests, this`callbacks
      ensures var s := Attempt(old(requests[index]), Rejected(e), retryLimits);
        requests == old(requests)[index := s.record] && callbacks == old(callbacks) + s.fired
    {
      var record := requests[index].(tried := requests[index].tried + 1);
      requests := requests[index := record];
      if !ShouldRetry(record.tried, retryLimits, e) {
        record := record.(markFinished := true);
        requests := requests[index := record];
        callbacks := callbacks + [Failed(record, e)];
      }
    }

    /** The pool hands a settled transfer to the handler for its outcome. */
    method Settle(index: nat, outcome: Outcome)
      requires index < |requests|
      modifies this`requests, this`callbacks
      ensures var s := Attempt(old(requests[index]), outcome, retryLimits);
        requests == old(requests)[index := s.record] && callbacks == old(callbacks) + s.fired
    {
      match outcome {
        case Fulfilled(response) => OnFulfilled(index, response);
        case Rejected(e) => OnRejected(index, e);
      }
    }

    /**
     * One round of `exec`: the whole list goes into one pool; a retry event is
     * published for each record tried before as its transfer starts, and every
     * settled transfer is handled on its own, in the order `ord` the
     * transport settles them.
     */
    method RunPool(ord: seq<nat>, transport: Transport)
      requires forall k :: 0 <= k < |ord| ==> ord[k] < |requests|
      modifies this`requests, this`callbacks, this`retryEvents
      ensures retryEvents == old(retryEvents) + RetryEvents(old(requests))
      ensures var st := HandleInOrder(old(requests), ord, transport, retryLimits);
        requests == st.records && callbacks == old(callbacks) + st.log
    {
      PublishRetryEvents();
      SettleRound(ord, transport);
    }

    /** The retry events of one round, published as the pool starts each transfer. */
    method PublishRetryEvents()
      modifies this`retryEvents
      ensures retryEvents == old(retryEvents) + RetryEvents(requests)
    {
      var i := 0;
      while i < |requests|
        invariant 0 <= i <= |requests|
        invariant retryEvents == old(retryEvents) + RetryEvents(requests[..i])
      {
        assert requests[..i + 1][..i] == requests[..i];
        if requests[i].tried >= 1 {
          retryEvents := retryEvents + [RetryEvent(requests[i].tried + 1, requests[i].request)];
        }
        i := i + 1;
      }
      assert requests[..|requests|] == requests;
    }

    /** The pool's handlers, each settled transfer in turn, in the order `ord`. */
    method SettleRound(ord: seq<nat>, transport: Transport)
      requires forall k :: 0 <= k < |ord| ==> ord[k] < |requests|
      modifies this`requests, this`callbacks
      ensures var st := HandleInOrder(old(requests), ord, transport, retryLimits);
        requests == st.records && callbacks == old(callbacks) + st.log
    {
      ghost var rs := requests;
      var j := 0;
      while j < |ord|
        invariant 0 <= j <= |ord|
        invariant requests == HandleInOrder(rs, ord[..j], transport, retryLimits).records
        invariant callbacks == old(callbacks) + HandleInOrder(rs, ord[..j], transport, retryLimits).log
        decreases |ord| - j
      {
        assert ord[..j + 1][..j] == ord[..j];
        Settle(ord[j], transport(requests[ord[j]].handle, requests[ord[j]].tried));
        j := j + 1;
      }
      assert ord[..j] == ord;
    }

    /**
     * `exec` has run `round` rounds over the list `all`, on top of the
     * callbacks `log0` and the events `events0` from before it started.
     */
    ghost predicate AtRound(all: seq<AsyncRequest>, order: (nat, nat) -> seq<nat>, transport: Transport,
                            round: nat, log0: seq<Completion>, events0: seq<RetryEvent>)
      reads this
    {
      var st := AfterRounds(all, order, transport, retryLimits, round);
      && requests == st.pending
      && callbacks == log0 + st.log
      && retryEvents == events0 + st.events
    }

    /**
     * One pass of the loop of `exec`: a pool over the whole list, then
     * `clearFinishedRequests`, taking `exec` from round `round` to the next.
     * `log0` and `events0` are the callbacks and events from before `exec`.
     */
    method OneRound(ghost all: seq<AsyncRequest>, order: (nat, nat) -> seq<nat>, transport: Transport,
                    round: nat, ghost log0: seq<Completion>, ghost events0: seq<RetryEvent>)
      requires HandlesDistinct(all)
      requires forall y :: 0 <= y < |all| ==> !all[y].markFinished && all[y].tried == 0
      requires forall k, n :: IsCompletionOrder(order(k, n), n)
      requires AtRound(all, order, transport, round, log0, events0)
      modifies this`requests, this`callbacks, this`retryEvents
      ensures AtRound(all, order, transport, round + 1, log0, events0)
      ensures old(requests) != [] ==> round < AttemptBudget(retryLimits)
    {
      ghost var prev := AfterRounds(all, order, transport, retryLimits, round);
      var ord := order(round, |requests|);
      AfterRoundsShape(all, order, transport, retryLimits, round);
      RunPool(ord, transport);
      ClearFinishedRequests();
      ghost var st := HandleInOrder(prev.pending, ord, transport, retryLimits);
      AppendAssoc(log0, prev.log, st.log);
      AppendAssoc(events0, prev.events, RetryEvents(prev.pending));
    }

    /** `clearFinishedRequests`. */
    method ClearFinishedRequests()
      modifies this`requests
      ensures requests == Unfinished(old(requests))
    {
      requests := Unfinished(requests);
    }

    /** `clear`: drops every pending request, finished or not. */
    method Clear()
      modifies this`requests
      ensures requests == []
    {
      requests := [];
    }

    /**
     * `exec`: rounds until the list is empty. Every request pending at the
     * start has then fired exactly one terminal callback, its fate, and no
     * other request has fired any; no retry event announces an attempt past
     * the budget; the list is empty and `exec` is no longer running.
     */
    method Exec(transport: Transport, order: (nat, nat) -> seq<nat>) returns (ghost rounds: nat)
      requires Valid()
      requires forall k, n :: IsCompletionOrder(order(k, n), n)
      modifies this`requests, this`isExecuting, this`callbacks, this`retryEvents
      ensures Valid() && requests == [] && !isExecuting
      ensures |callbacks| >= |old(callbacks)| && callbacks[..|old(callbacks)|] == old(callbacks)
      ensures forall x :: 0 <= x < |old(requests)| ==>
        Of(callbacks[|old(callbacks)|..], old(requests)[x].handle) == [Fate(old(requests)[x], transport, retryLimits)]
      ensures forall h :: h !in HandlesOf(old(requests)) ==> Of(callbacks[|old(callbacks)|..], h) == []
      ensures |retryEvents| >= |old(retryEvents)| && retryEvents[..|old(retryEvents)|] == old(retryEvents)
      ensures forall e :: e in retryEvents[|old(retryEvents)|..] ==> 2 <= e.attempt <= AttemptBudget(retryLimits)
      ensures old(requests) == [] ==> callbacks == old(callbacks) && retryEvents == old(retryEvents)
      ensures var st := AfterRounds(old(requests), order, transport, retryLimits, rounds);
        && st.pending == [] && callbacks == old(callbacks) + st.log && retryEvents == old(retryEvents) + st.events
      ensures |retryEvents| == |old(retryEvents)| + RetriesLeftAll(old(requests), transport, retryLimits)
    {
      isExecuting := true;
      ghost var all := requests;
      rounds := RunRounds(transport, order);
      ghost var st := AfterRounds(all, order, transport, retryLimits, rounds);
      AfterRoundsShape(all, order, transport, retryLimits, rounds);
      AfterRoundsDrained(all, order, transport, retryLimits, rounds);
      AfterRoundsRetryCount(all, order, transport, retryLimits, rounds);
      assert callbacks[|old(callbacks)|..] == st.log;
      assert retryEvents[|old(retryEvents)|..] == st.events;
      Clear();
      isExecuting := false;
    }

    /**
     * The loop of `exec`: rounds until the list is empty, which happens
     * after `rounds` rounds, within the attempt budget.
     */
    method RunRounds(transport: Transport, order: (nat, nat) -> seq<nat>) returns (ghost rounds: nat)
      requires Valid()
      requires forall k, n :: IsCompletionOrder(order(k, n), n)
      modifies this`requests, this`callbacks, this`retryEvents
      ensures var st := AfterRounds(old(requests), order, transport, retryLimits, rounds);
        && requests == [] && st.pending == []
        && callbacks == old(callbacks) + st.log
        && retryEvents == old(retryEvents) + st.events
      ensures rounds <= AttemptBudget(retryLimits)
      ensures old(requests) == [] ==> rounds == 0
    {
      ghost var all := requests;
      var round: nat := 0;
      while |requests| > 0
        invariant AtRound(all, order, transport, round, old(callbacks), old(retryEvents))
        invariant round <= AttemptBudget(retryLimits)
        invariant all == [] ==> round == 0
        decreases AttemptBudget(retryLimits) - round
      {
        OneRound(all, order, transport, round, old(callbacks), old(retryEvents));
        round := round + 1;
      }
      rounds := round;
    }

    /**
     * `call`: `add` with a callback that captures the result and one that
     * re-raises the failure, then `exec`. The result is what the request's
     * fate delivered: its response, or the failure that ended it. Requests
     * added before are run along with it.
     */
    method Call(descriptor: Descriptor, transport: Transport, order: (nat, nat) -> seq<nat>)
      returns (result: Result<Response>, ghost rounds: nat)
      requires Valid()
      requires forall k, n :: IsCompletionOrder(order(k, n), n)
      modifies this`requests, this`nextHandle, this`isExecuting, this`callbacks, this`retryEvents
      ensures Valid()
      ensures old(isExecuting) ==>
        && result == Failure(Busy) && isExecuting
        && requests == old(requests) && nextHandle == old(nextHandle)
        && callbacks == old(callbacks) && retryEvents == old(retryEvents)
      ensures !old(isExecuting) ==>
        var mine := AsyncRequest(old(nextHandle), descriptor,
          WithRiotHeaders(descriptor.request, apiKey, userAgentString), CaptureResult, Some(Rethrow), 0, false);
        var fate := Fate(mine, transport, retryLimits);
        var run := old(requests) + [mine];
        var st := AfterRounds(run, order, transport, retryLimits, rounds);
        && result == (if fate.Done? then Success(fate.response) else Failure(RequestFailed(fate.exception)))
        && requests == [] && !isExecuting && nextHandle == old(nextHandle) + 1
        && |callbacks| >= |old(callbacks)| && callbacks[..|old(callbacks)|] == old(callbacks)
        && Of(callbacks[|old(callbacks)|..], old(nextHandle)) == [fate]
        && (forall x :: 0 <= x < |run| ==> Of(callbacks[|old(callbacks)|..], run[x].handle) == [Fate(run[x], transport, retryLimits)])
        && (forall h :: h !in HandlesOf(run) ==> Of(callbacks[|old(callbacks)|..], h) == [])
        && |retryEvents| >= |old(retryEvents)| && retryEvents[..|old(retryEvents)|] == old(retryEvents)
        && (forall e :: e in retryEvents[|old(retryEvents)|..] ==> 2 <= e.attempt <= AttemptBudget(retryLimits))
        && st.pending == [] && callbacks == old(callbacks) + st.log && retryEvents == old(retryEvents) + st.events
        && |retryEvents| == |old(retryEvents)| + RetriesLeftAll(run, transport, retryLimits)
    {
      var added := Add(descriptor, CaptureResult, Some(Rethrow));
      if added.Failure? {
        return Failure(Busy), 0;
      }
      var c0 := |callbacks|;
      ghost var before := requests;
      ghost var record := before[|before| - 1];
      assert before == old(requests) + [record];
      rounds := Exec(transport, order);
      assert Of(callbacks[c0..], record.handle) == [Fate(record, transport, retryLimits)];
      var mine := Of(callbacks[c0..], added.value);
      match mine[0] {
        case Done(_, response) => result := Success(response);
        case Failed(_, e) => result := Failure(RequestFailed(e));
      }
    }
  }

  /**
   * Associativity of sequence concatenation. Dafny knows it; this lemma only
   * hands the solver the one instance `OneRound` needs, which keeps that
   * proof small. It states nothing about the dispatcher.
   */
  lemma AppendAssoc<T>(a: seq<T>, b: seq<T>, c: seq<T>)
    ensures a + b + c == a + (b + c)
  {
  }

  /** Handling the transfer at `x` adds to the round's log exactly what its handler fired, under its handle. */
  lemma SettledOne(rs: seq<AsyncRequest>, x: nat, log: seq<Completion>, log': seq<Completion>,
                   transport: Transport, retryLimits: int)
    requires x < |rs| && HandlesDistinct(rs)
    requires log' == log + Dispatch(rs[x], transport, retryLimits).fired
    ensures forall y :: 0 <= y < |rs| && y != x ==> Of(log', rs[y].handle) == Of(log, rs[y].handle)
    ensures Of(log', rs[x].handle) == Of(log, rs[x].handle) + Dispatch(rs[x], transport, retryLimits).fired
    ensures forall h :: h !in HandlesOf(rs) ==> Of(log', h) == Of(log, h)
  {
    var fired := Dispatch(rs[x], transport, retryLimits).fired;
    assert rs[x] in rs;
    forall h ensures Of(log', h) == Of(log, h) + (if h == rs[x].handle then fired else []) {
      OfConcat(log, fired, h);
      assert fired == [] || (|fired| == 1 && fired[0].record.handle == rs[x].handle);
    }
  }
}
