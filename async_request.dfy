/**
 * The per-request record the dispatcher keeps (`AsyncRequest`), what handling
 * one settled attempt does to it, and where its whole lifetime ends.
 */
module AsyncRequests {
  import opened Http
  import opened RetryPolicy

  /**
   * Identity of a completion callback. A caller of `add` supplies its own;
   * the synchronous `call` installs one that captures the result and one that
   * re-raises the failure.
   */
  datatype Callback = UserCallback(id: nat) | CaptureResult | Rethrow

  /** A request method: all the dispatcher takes from it is its request. */
  datatype Descriptor = Descriptor(request: Request)

  /**
   * One pending request. `handle` stands for the identity of the PHP object;
   * `request` is the descriptor's request with the two standard headers
   * added; `tried` counts handled attempts; `markFinished` is set by a
   * terminal outcome.
   */
  datatype AsyncRequest = AsyncRequest(
    handle: nat,
    descriptor: Descriptor,
    request: Request,
    onDone: Callback,
    onFail: Option<Callback>,
    tried: nat,
    markFinished: bool)

  /** A terminal callback invocation, with the record as it stood when it fired. */
  datatype Completion =
    | Done(record: AsyncRequest, response: Response)
    | Failed(record: AsyncRequest, exception: RequestException)

  /** What handling one settled attempt leaves: the record and the callbacks it fired. */
  datatype Settlement = Settlement(record: AsyncRequest, fired: seq<Completion>)

  /** The transport, abstracted: how attempt number `tried` of request `handle` settles. */
  type Transport = (nat, nat) -> Outcome

  /**
   * The fulfilled and rejected handlers of one round. Every handled attempt
   * bumps `tried` by one. A response finishes the record and fires `onDone`;
   * a failure finishes it and fires `onFail` exactly when `shouldRetry` says
   * no, and otherwise leaves it pending. Nothing else in the record changes.
   */
  function Attempt(r: AsyncRequest, outcome: Outcome, retryLimits: int): (s: Settlement)
    ensures s.record == r.(tried := r.tried + 1, markFinished := s.record.markFinished)
    ensures outcome.Fulfilled? ==>
      s.record.markFinished && s.fired == [Done(s.record, outcome.response)]
    ensures outcome.Rejected? && !ShouldRetry(r.tried + 1, retryLimits, outcome.exception) ==>
      s.record.markFinished && s.fired == [Failed(s.record, outcome.exception)]
    ensures outcome.Rejected? && ShouldRetry(r.tried + 1, retryLimits, outcome.exception) ==>
      s.record.markFinished == r.markFinished && s.fired == []
  {
    var tried := r.(tried := r.tried + 1);
    match outcome
    case Fulfilled(response) =>
      var finished := tried.(markFinished := true);
      Settlement(finished, [Done(finished, response)])
    case Rejected(e) =>
      if !ShouldRetry(tried.tried, retryLimits, e) then
        var finished := tried.(markFinished := true);
        Settlement(finished, [Failed(finished, e)])
      else
        Settlement(tried, [])
  }

  /** Dispatching `r` once more: the transport decides, the handlers react. */
  function Dispatch(r: AsyncRequest, transport: Transport, retryLimits: int): Settlement
  {
    Attempt(r, transport(r.handle, r.tried), retryLimits)
  }

  /** Whether `outcome` of an attempt that brings the counter to `tried` sends the request round again. */
  predicate Retried(outcome: Outcome, tried: nat, retryLimits: int)
  {
    outcome.Rejected? && ShouldRetry(tried, retryLimits, outcome.exception)
  }

  /**
   * The one terminal callback a pending record ends with, when it is
   * dispatched round after round until an attempt is not retried. It belongs
   * to the same request, with the same descriptor, wire request and
   * callbacks, and the record has been attempted at least once more and
   * never past the budget.
   */
  function Fate(r: AsyncRequest, transport: Transport, retryLimits: int): (c: Completion)
    ensures c.record == r.(tried := c.record.tried, markFinished := true)
    ensures r.tried < c.record.tried
    ensures c.record.tried <= if r.tried < retryLimits then retryLimits else r.tried + 1
    decreases retryLimits - r.tried
  {
    var s := Dispatch(r, transport, retryLimits);
    if s.fired != [] then s.fired[0] else Fate(s.record, transport, retryLimits)
  }

  /** A record that has never been attempted fires after at most `max(1, retryLimits)` attempts. */
  lemma FateWithinBudget(r: AsyncRequest, transport: Transport, retryLimits: int)
    requires r.tried == 0
    ensures 1 <= Fate(r, transport, retryLimits).record.tried <= AttemptBudget(retryLimits)
  {
  }

  /** Handling an attempt either fires the record's terminal callback or leaves it with the same fate. */
  lemma FateStep(r: AsyncRequest, transport: Transport, retryLimits: int)
    ensures var s := Dispatch(r, transport, retryLimits);
      if s.fired == [] then Fate(s.record, transport, retryLimits) == Fate(r, transport, retryLimits)
      else s.fired == [Fate(r, transport, retryLimits)]
  {
  }

  /** Every attempt before the last one was a retried failure. */
  lemma {:induction false} FateRetriesBefore(r: AsyncRequest, transport: Transport, retryLimits: int, k: nat)
    requires r.tried <= k < Fate(r, transport, retryLimits).record.tried - 1
    ensures Retried(transport(r.handle, k), k + 1, retryLimits)
    decreases retryLimits - r.tried
  {
    var s := Dispatch(r, transport, retryLimits);
    if s.fired == [] {
      assert Retried(transport(r.handle, r.tried), r.tried + 1, retryLimits);
      if k > r.tried {
        FateRetriesBefore(s.record, transport, retryLimits, k);
      }
    }
  }

  /** The last attempt decides which callback fires, and it was not retried. */
  lemma {:induction false} FateLastAttempt(r: AsyncRequest, transport: Transport, retryLimits: int)
    ensures var c := Fate(r, transport, retryLimits);
      var o := transport(r.handle, c.record.tried - 1);
      && !Retried(o, c.record.tried, retryLimits)
      && (o.Fulfilled? ==> c == Done(c.record, o.response))
      && (o.Rejected? ==> c == Failed(c.record, o.exception))
    decreases retryLimits - r.tried
  {
    var s := Dispatch(r, transport, retryLimits);
    if s.fired == [] {
      FateLastAttempt(s.record, transport, retryLimits);
    }
  }

  /**
   * Conversely, if attempts `r.tried` up to `k - 1` are retried failures and
   * attempt `k` is not retried, the record fires after exactly `k + 1` attempts.
   */
  lemma {:induction false} FateStopsAt(r: AsyncRequest, transport: Transport, retryLimits: int, k: nat)
    requires r.tried <= k
    requires forall j :: r.tried <= j < k ==> Retried(transport(r.handle, j), j + 1, retryLimits)
    requires !Retried(transport(r.handle, k), k + 1, retryLimits)
    ensures Fate(r, transport, retryLimits).record.tried == k + 1
    decreases k - r.tried
  {
    var s := Dispatch(r, transport, retryLimits);
    if r.tried < k {
      assert Retried(transport(r.handle, r.tried), r.tried + 1, retryLimits);
      FateStopsAt(s.record, transport, retryLimits, k);
    }
  }

  /** The request handles occurring in `rs`. */
  function HandlesOf(rs: seq<AsyncRequest>): set<nat>
  {
    set r | r in rs :: r.handle
  }

  /** No two records of `rs` stand for the same request object. */
  ghost predicate HandlesDistinct(rs: seq<AsyncRequest>)
  {
    forall i, j :: 0 <= i < j < |rs| ==> rs[i].handle != rs[j].handle
  }

  /** `clearFinishedRequests`: the records not yet finished, in their order. */
  function Unfinished(rs: seq<AsyncRequest>): (u: seq<AsyncRequest>)
    ensures |u| <= |rs|
  {
    if rs == [] then []
    else if rs[0].markFinished then Unfinished(rs[1..])
    else [rs[0]] + Unfinished(rs[1..])
  }

  /** The filter keeps exactly the records not finished. */
  lemma {:induction false} UnfinishedMembers(rs: seq<AsyncRequest>)
    ensures forall r :: r in Unfinished(rs) <==> r in rs && !r.markFinished
  {
    if rs != [] {
      UnfinishedMembers(rs[1..]);
      assert rs == [rs[0]] + rs[1..];
    }
  }

  /** Filtering distributes over concatenation: the relative order of the kept records is preserved. */
  lemma {:induction false} UnfinishedConcat(a: seq<AsyncRequest>, b: seq<AsyncRequest>)
    ensures Unfinished(a + b) == Unfinished(a) + Unfinished(b)
  {
    if a == [] {
      assert a + b == b;
    } else {
      assert (a + b)[0] == a[0];
      assert (a + b)[1..] == a[1..] + b;
      UnfinishedConcat(a[1..], b);
    }
  }

  /** A list with nothing finished in it is kept as it is. */
  lemma {:induction false} UnfinishedKeepsPending(rs: seq<AsyncRequest>)
    requires forall i :: 0 <= i < |rs| ==> !rs[i].markFinished
    ensures Unfinished(rs) == rs
  {
    if rs != [] {
      UnfinishedKeepsPending(rs[1..]);
    }
  }

  /** A record can be put in front of a list exactly when its handle is not already used there. */
  lemma DistinctCons(x: AsyncRequest, t: seq<AsyncRequest>)
    ensures HandlesDistinct([x] + t) <==> x.handle !in HandlesOf(t) && HandlesDistinct(t)
  {
    var s := [x] + t;
    if HandlesDistinct(s) {
      forall m | 0 <= m < |t| ensures t[m].handle != x.handle {
        assert s[0] == x && s[m + 1] == t[m];
      }
      forall i, j | 0 <= i < j < |t| ensures t[i].handle != t[j].handle {
        assert s[i + 1] == t[i] && s[j + 1] == t[j];
      }
    }
    if x.handle !in HandlesOf(t) && HandlesDistinct(t) {
      forall i, j | 0 <= i < j < |s| ensures s[i].handle != s[j].handle {
        assert s[j] == t[j - 1] && t[j - 1] in t;
        if i > 0 {
          assert s[i] == t[i - 1];
        } else {
          assert s[0] == x && s[j].handle in HandlesOf(t);
        }
      }
    }
  }

  /** Filtering never makes two records share a handle. */
  lemma {:induction false} UnfinishedDistinct(rs: seq<AsyncRequest>)
    requires HandlesDistinct(rs)
    ensures HandlesDistinct(Unfinished(rs))
  {
    if rs != [] {
      var tail := rs[1..];
      assert rs == [rs[0]] + tail;
      DistinctCons(rs[0], tail);
      UnfinishedDistinct(tail);
      var ut := Unfinished(tail);
      if !rs[0].markFinished {
        UnfinishedMembers(tail);
        assert HandlesOf(ut) <= HandlesOf(tail);
        DistinctCons(rs[0], ut);
      }
    }
  }

  /** The completions in `log` that belong to request `handle`, in log order. */
  function Of(log: seq<Completion>, handle: nat): seq<Completion>
  {
    if log == [] then []
    else
      var last := log[|log| - 1];
      Of(log[..|log| - 1], handle) + (if last.record.handle == handle then [last] else [])
  }

  /** The projection keeps exactly the completions of that request. */
  lemma {:induction false} OfMembers(log: seq<Completion>, handle: nat)
    ensures forall c :: c in Of(log, handle) <==> c in log && c.record.handle == handle
  {
    if log != [] {
      var prefix := log[..|log| - 1];
      OfMembers(prefix, handle);
      assert log == prefix + [log[|log| - 1]];
    }
  }

  /** Projecting onto one request distributes over appending to the log. */
  lemma {:induction false} OfConcat(a: seq<Completion>, b: seq<Completion>, handle: nat)
    ensures Of(a + b, handle) == Of(a, handle) + Of(b, handle)
    decreases |b|
  {
    if b == [] {
      assert a + b == a;
    } else {
      var b' := b[..|b| - 1];
      assert (a + b)[..|a + b| - 1] == a + b';
      assert (a + b)[|a + b| - 1] == b[|b| - 1];
      OfConcat(a, b', handle);
    }
  }

  /**
   * The retry events fired while dispatching one round: one for every record
   * that has been tried before, carrying its next attempt number and its
   * unchanged wire request, in list order.
   */
  datatype RetryEvent = RetryEvent(attempt: nat, request: Request)

  function RetryEvents(rs: seq<AsyncRequest>): (es: seq<RetryEvent>)
    ensures |es| <= |rs|
  {
    if rs == [] then []
    else
      var last := rs[|rs| - 1];
      RetryEvents(rs[..|rs| - 1]) + (if last.tried >= 1 then [RetryEvent(last.tried + 1, last.request)] else [])
  }

  /**
   * A retry event is published exactly for each record tried before,
   * announcing its next attempt number and its unchanged wire request.
   */
  lemma {:induction false} RetryEventsMembers(rs: seq<AsyncRequest>)
    ensures forall r :: r in rs && r.tried >= 1 ==> RetryEvent(r.tried + 1, r.request) in RetryEvents(rs)
    ensures forall e :: e in RetryEvents(rs) ==>
      exists r :: r in rs && r.tried >= 1 && e == RetryEvent(r.tried + 1, r.request)
  {
    if rs != [] {
      var prefix := rs[..|rs| - 1];
      RetryEventsMembers(prefix);
      assert rs == prefix + [rs[|rs| - 1]];
    }
  }

  /**
   * The retry events a pending record will still publish: one for each of
   * its remaining dispatches that is not its first attempt. For a record
   * never tried, that is its number of retries, `Fate(r).record.tried - 1`.
   */
  ghost function RetriesLeft(r: AsyncRequest, transport: Transport, retryLimits: int): int
  {
    Fate(r, transport, retryLimits).record.tried - (if r.tried >= 1 then r.tried else 1)
  }

  /** The retry events the records of `rs` will still publish, together. */
  ghost function RetriesLeftAll(rs: seq<AsyncRequest>, transport: Transport, retryLimits: int): int
  {
    if rs == [] then 0
    else RetriesLeftAll(rs[..|rs| - 1], transport, retryLimits) + RetriesLeft(rs[|rs| - 1], transport, retryLimits)
  }

  /** The count of a list is the count of its first part plus that of the rest. */
  lemma {:induction false} RetriesLeftAllConcat(a: seq<AsyncRequest>, b: seq<AsyncRequest>,
                                                transport: Transport, retryLimits: int)
    ensures RetriesLeftAll(a + b, transport, retryLimits) ==
      RetriesLeftAll(a, transport, retryLimits) + RetriesLeftAll(b, transport, retryLimits)
  {
    if b == [] {
      assert a + b == a;
    } else {
      var b' := b[..|b| - 1];
      assert (a + b)[..|a + b| - 1] == a + b';
      assert (a + b)[|a + b| - 1] == b[|b| - 1];
      RetriesLeftAllConcat(a, b', transport, retryLimits);
    }
  }

  /** The filter over one record, counted. */
  lemma RetriesLeftAllOne(d: AsyncRequest, transport: Transport, retryLimits: int)
    ensures RetriesLeftAll(Unfinished([d]), transport, retryLimits) ==
      if d.markFinished then 0 else RetriesLeft(d, transport, retryLimits)
  {
    assert [d][1..] == [] && [d][..0] == [];
  }

  /**
   * One dispatch of a pending record publishes one retry event if it is not
   * the record's first attempt; the rest of its events are left to the
   * record it leaves pending, if it stays pending.
   */
  lemma RetriesLeftStep(r: AsyncRequest, transport: Transport, retryLimits: int)
    requires !r.markFinished
    ensures var s := Dispatch(r, transport, retryLimits);
      RetriesLeft(r, transport, retryLimits) ==
        |RetryEvents([r])| + (if s.record.markFinished then 0 else RetriesLeft(s.record, transport, retryLimits))
  {
    RetryEventsOne(r);
    FateStep(r, transport, retryLimits);
  }

  /** A single record publishes one event exactly when it has been tried before. */
  lemma RetryEventsOne(r: AsyncRequest)
    ensures RetryEvents([r]) == if r.tried >= 1 then [RetryEvent(r.tried + 1, r.request)] else []
  {
    assert [r][..0] == [];
  }

  /**
   * The events of a list are those of its first part followed by those of
   * the rest: one per record tried before, in list order.
   */
  lemma {:induction false} RetryEventsConcat(a: seq<AsyncRequest>, b: seq<AsyncRequest>)
    ensures RetryEvents(a + b) == RetryEvents(a) + RetryEvents(b)
  {
    if b == [] {
      assert a + b == a;
    } else {
      var b' := b[..|b| - 1];
      assert (a + b)[..|a + b| - 1] == a + b';
      assert (a + b)[|a + b| - 1] == b[|b| - 1];
      RetryEventsConcat(a, b');
    }
  }
}
