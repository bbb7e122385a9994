/** `withRetry`: call an operation up to `maxRetries + 1` times, returning the
    first error-free result and backing off exponentially between attempts.
    The operation is the sequence of its successive outcomes, and the waits
    are recorded instead of slept. */
module Retry {
  import opened Optional
  import opened ApiErrors

  /** One call of the operation: it resolves to data and an error field, or
      it rejects with a thrown value. */
  datatype Outcome<D> = Resolved(data: D, error: Option<ApiError>) | Rejected(thrown: Option<ApiError>)

  /** What `withRetry` resolves to: `{data, error}`. */
  datatype Response<D> = Response(data: Option<D>, error: Option<ApiError>)

  /** A run: the response, how many calls were made, and the waits in order. */
  datatype Trace<D> = Trace(response: Response<D>, calls: nat, delays: seq<int>)

  /** An outcome that `withRetry` returns at once: resolved with a falsy error. */
  predicate Succeeded<D>(o: Outcome<D>)
  {
    o.Resolved? && o.error.None?
  }

  /** The error an unsuccessful outcome leaves in `lastError`. */
  function ErrorOf<D>(o: Outcome<D>): Option<ApiError>
  {
    if o.Resolved? then o.error else o.thrown
  }

  /** `Math.pow(2, k)` */
  function Pow2(k: nat): (r: nat)
    ensures r >= 1
  {
    if k == 0 then 1 else 2 * Pow2(k - 1)
  }

  /** The wait after failed attempt `attempt`. */
  function Delay(initialDelay: int, attempt: nat): int
  {
    initialDelay * Pow2(attempt)
  }

  /** The run from attempt `attempt` on, with `lastError` so far. `calls` is
      the number of calls made since the start, counting earlier attempts. */
  function RunFrom<D>(outs: seq<Outcome<D>>, maxRetries: int, initialDelay: int, attempt: nat,
                      lastError: Option<ApiError>): Trace<D>
    requires |outs| > maxRetries
    decreases maxRetries - attempt + 1
  {
    if attempt > maxRetries then Trace(Response(None, lastError), attempt, [])
    else
      var o := outs[attempt];
      if Succeeded(o) then Trace(Response(Some(o.data), None), attempt + 1, [])
      else if !IsRetryable(ErrorOf(o)) || attempt == maxRetries then
        Trace(Response(None, ErrorOf(o)), attempt + 1, [])
      else
        var rest := RunFrom(outs, maxRetries, initialDelay, attempt + 1, ErrorOf(o));
        Trace(rest.response, rest.calls, [Delay(initialDelay, attempt)] + rest.delays)
  }

  /** The run of `withRetry` over the outcomes. The operation must have an
      outcome for every attempt the loop may make. */
  function Run<D>(outs: seq<Outcome<D>>, maxRetries: int, initialDelay: int): Trace<D>
    requires |outs| > maxRetries
  {
    RunFrom(outs, maxRetries, initialDelay, 0, None)
  }

  /** What a run from `attempt` on does: it calls at least once and at most
      up to attempt `maxRetries`; every call but the last failed with a
      retryable error; the response is the last call's data when it succeeded
      and otherwise its error, and a failure stops the run only when it is
      not retryable or the attempts are used up; the waits double each time. */
  lemma {:induction false} RunFromSpec<D>(outs: seq<Outcome<D>>, maxRetries: int, initialDelay: int,
                                          attempt: nat, lastError: Option<ApiError>)
    requires |outs| > maxRetries
    requires attempt <= maxRetries
    ensures var t := RunFrom(outs, maxRetries, initialDelay, attempt, lastError);
      && attempt < t.calls <= maxRetries + 1
      && (forall k :: attempt <= k < t.calls - 1 ==> !Succeeded(outs[k]) && IsRetryable(ErrorOf(outs[k])))
      && (Succeeded(outs[t.calls - 1]) ==> t.response == Response(Some(outs[t.calls - 1].data), None))
      && (!Succeeded(outs[t.calls - 1]) ==>
            && t.response == Response(None, ErrorOf(outs[t.calls - 1]))
            && (!IsRetryable(ErrorOf(outs[t.calls - 1])) || t.calls == maxRetries + 1))
      && |t.delays| == t.calls - 1 - attempt
      && (forall k :: 0 <= k < |t.delays| ==> t.delays[k] == Delay(initialDelay, attempt + k))
    decreases maxRetries - attempt
  {
    var o := outs[attempt];
    if !Succeeded(o) && IsRetryable(ErrorOf(o)) && attempt != maxRetries {
      RunFromSpec(outs, maxRetries, initialDelay, attempt + 1, ErrorOf(o));
      var rest := RunFrom(outs, maxRetries, initialDelay, attempt + 1, ErrorOf(o));
      var t := RunFrom(outs, maxRetries, initialDelay, attempt, lastError);
      assert t.delays == [Delay(initialDelay, attempt)] + rest.delays;
      forall k | 0 <= k < |t.delays|
        ensures t.delays[k] == Delay(initialDelay, attempt + k)
      {
        if k > 0 {
          assert t.delays[k] == rest.delays[k - 1];
        }
      }
    }
  }

  /** `withRetry`'s promises: with a negative `maxRetries` the operation is
      never called and the response is `{data: null, error: null}`; otherwise
      it is called between once and `maxRetries + 1` times, returns the first
      successful result, stops at a non-retryable error or the last attempt
      with that error, and waits `initialDelay * 2^k` after failed attempt k. */
  lemma RunSpec<D>(outs: seq<Outcome<D>>, maxRetries: int, initialDelay: int)
    requires |outs| > maxRetries
    ensures maxRetries < 0 ==> Run(outs, maxRetries, initialDelay) == Trace(Response(None, None), 0, [])
    ensures maxRetries >= 0 ==>
      var t := Run(outs, maxRetries, initialDelay);
      && 1 <= t.calls <= maxRetries + 1
      && (forall k :: 0 <= k < t.calls - 1 ==> !Succeeded(outs[k]) && IsRetryable(ErrorOf(outs[k])))
      && (t.response.data.Some? <==> Succeeded(outs[t.calls - 1]))
      && (t.response.data.Some? ==> t.response == Response(Some(outs[t.calls - 1].data), None))
      && (t.response.data.None? ==>
            && t.response.error == ErrorOf(outs[t.calls - 1])
            && (!IsRetryable(t.response.error) || t.calls == maxRetries + 1))
      && |t.delays| == t.calls - 1
      && (forall k :: 0 <= k < |t.delays| ==> t.delays[k] == initialDelay * Pow2(k))
  {
    if maxRetries >= 0 {
      RunFromSpec(outs, maxRetries, initialDelay, 0, None);
    }
  }

  /** If some attempt within the limit succeeds and every earlier one failed
      retryably, `withRetry` returns exactly that attempt's data after
      `i + 1` calls. */
  lemma {:induction false} FirstSuccessReturned<D>(outs: seq<Outcome<D>>, maxRetries: int, initialDelay: int, i: nat)
    requires |outs| > maxRetries
    requires i <= maxRetries
    requires Succeeded(outs[i])
    requires forall k :: 0 <= k < i ==> !Succeeded(outs[k]) && IsRetryable(ErrorOf(outs[k]))
    ensures Run(outs, maxRetries, initialDelay).calls == i + 1
    ensures Run(outs, maxRetries, initialDelay).response == Response(Some(outs[i].data), None)
  {
    RunSpec(outs, maxRetries, initialDelay);
    var t := Run(outs, maxRetries, initialDelay);
  }

  /** The first attempt failing with a non-retryable error ends the run after
      one call, with that error. */
  lemma FatalFirstAttempt<D>(outs: seq<Outcome<D>>, maxRetries: int, initialDelay: int)
    requires |outs| > maxRetries >= 0
    requires !Succeeded(outs[0]) && !IsRetryable(ErrorOf(outs[0]))
    ensures Run(outs, maxRetries, initialDelay) == Trace(Response(None, ErrorOf(outs[0])), 1, [])
  {
  }

  /** The defaults of `maxRetries` and `initialDelay` (`MAX_RETRIES`, `RETRY_DELAY`). */
  const MaxRetries: int := 3
  const RetryDelay: int := 1000

  /** `withRetry(operation)` with the default arguments calls the operation at
      most four times and waits 1000, 2000 and 4000 ms, as far as it gets. */
  lemma DefaultRetryPolicy<D>(outs: seq<Outcome<D>>)
    requires |outs| > MaxRetries
    ensures var t := Run(outs, MaxRetries, RetryDelay);
      && 1 <= t.calls <= 4
      && |t.delays| == t.calls - 1
      && t.delays == [1000, 2000, 4000][..|t.delays|]
  {
    RunSpec(outs, MaxRetries, RetryDelay);
    var t := Run(outs, MaxRetries, RetryDelay);
    assert Pow2(0) == 1 && Pow2(1) == 2 && Pow2(2) == 4;
  }

  /** The loop of `withRetry`. The early returns leave the loop with the
      response; falling out of the loop answers `{data: null, error: lastError}`. */
  method WithRetry<D>(outs: seq<Outcome<D>>, maxRetries: int, initialDelay: int)
    returns (response: Response<D>, calls: nat, delays: seq<int>)
    requires |outs| > maxRetries
    ensures Trace(response, calls, delays) == Run(outs, maxRetries, initialDelay)
  {
    var lastError: Option<ApiError> := None;
    delays := [];
    var attempt: nat := 0;
    ghost var run := Run(outs, maxRetries, initialDelay);
    while attempt <= maxRetries
      invariant var t := RunFrom(outs, maxRetries, initialDelay, attempt, lastError);
        run == Trace(t.response, t.calls, delays + t.delays)
      decreases maxRetries - attempt + 1
    {
      ghost var t := RunFrom(outs, maxRetries, initialDelay, attempt, lastError);
      var result := outs[attempt];
      if Succeeded(result) {
        assert t == Trace(Response(Some(result.data), None), attempt + 1, []);
        assert delays + [] == delays;
        return Response(Some(result.data), None), attempt + 1, delays;
      }
      lastError := ErrorOf(result);
      if !IsRetryable(lastError) || attempt == maxRetries {
        assert t == Trace(Response(None, lastError), attempt + 1, []);
        assert delays + [] == delays;
        return Response(None, lastError), attempt + 1, delays;
      }
      var delay := initialDelay * Pow2(attempt);
      ghost var rest := RunFrom(outs, maxRetries, initialDelay, attempt + 1, lastError);
      assert t == Trace(rest.response, rest.calls, [delay] + rest.delays);
      assert delays + [delay] + rest.delays == delays + ([delay] + rest.delays);
      delays := delays + [delay];
      attempt := attempt + 1;
    }
    assert delays + [] == delays;
    response, calls := Response(None, lastError), attempt;
  }
}
