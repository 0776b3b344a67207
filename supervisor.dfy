/** The reconnection policy of the node's `error` handler: a refused
    connection is retried with a linearly growing delay until the retry
    counter reaches its cap; nothing ever lowers the counter. */
module Supervisor {
  import opened Types

  const MAX_RETRIES: nat := 10
  /** Delay before re-running a discovery that found nothing. */
  const RETRY_DELAY: int := 5000
  /** Step of the linear backoff after a refused connection. */
  const BACKOFF_STEP: int := 5000
  /** Delay, and discovery timeout, of the reconnect after `disconnected`. */
  const RECONNECT_DELAY: int := 5000
  /** Discovery timeout of a retry after a refused connection. */
  const RETRY_CONNECT_TIMEOUT: int := 5

  /** An `error` event, by the two texts the handler looks for in it:
      "Error from socket" and "ECONNREFUSED". */
  datatype ErrorInfo = ErrorInfo(isSocketError: bool, isConnRefused: bool)

  /** The counter after one error, and the delay of the retry it schedules. */
  datatype RetryStep = RetryStep(retries: nat, delay: Option<int>)

  /** The retry decision of the `error` handler. A retry is scheduled exactly
      when the error is a refusal and the cap is not reached; it then counts
      one more attempt and waits 5000 ms per attempt, new count included. */
  function OnRefusal(retries: nat, err: ErrorInfo): (s: RetryStep)
    ensures s.delay.Some? <==> err.isConnRefused && retries < MAX_RETRIES
    ensures s.retries == (if s.delay.Some? then retries + 1 else retries)
    ensures s.delay.Some? ==> s.delay.value == BACKOFF_STEP * s.retries
    ensures retries <= MAX_RETRIES ==> s.retries <= MAX_RETRIES
  {
    if err.isConnRefused && retries < MAX_RETRIES then
      RetryStep(retries + 1, Some(BACKOFF_STEP * (retries + 1)))
    else
      RetryStep(retries, None)
  }

  /** The counter after a run of errors, and the retry delays scheduled on
      the way, in order. */
  datatype Run = Run(retries: nat, delays: seq<int>)

  function RunErrors(retries: nat, errs: seq<ErrorInfo>): Run
    decreases |errs|
  {
    if errs == [] then Run(retries, [])
    else
      var s := OnRefusal(retries, errs[0]);
      var r := RunErrors(s.retries, errs[1..]);
      Run(r.retries, (if s.delay.Some? then [s.delay.value] else []) + r.delays)
  }

  function Min(a: nat, b: nat): nat { if a <= b then a else b }

  /** The backoff delays for attempts `from + 1` up to `to`. */
  function Ramp(from: nat, to: nat): seq<int>
    decreases to - from
  {
    if from >= to then [] else [BACKOFF_STEP * (from + 1)] + Ramp(from + 1, to)
  }

  /** The ramp grows at its upper end by one more backoff step. */
  lemma {:induction false} RampExtend(from: nat, to: nat)
    requires from <= to
    ensures Ramp(from, to + 1) == Ramp(from, to) + [BACKOFF_STEP * (to + 1)]
    decreases (to as int) - (from as int)
  {
    if from < to {
      RampExtend(from + 1, to);
    }
  }

  /** Consecutive refusals from `r` attempts schedule one retry each, with
      delays 5000·(r+1), 5000·(r+2), … until the counter reaches 10, and
      none after that. */
  lemma {:induction false} RefusalsBackOffLinearly(r: nat, errs: seq<ErrorInfo>)
    requires r <= MAX_RETRIES
    requires forall i :: 0 <= i < |errs| ==> errs[i].isConnRefused
    ensures RunErrors(r, errs).retries == Min(r + |errs|, MAX_RETRIES)
    ensures RunErrors(r, errs).delays == Ramp(r, Min(r + |errs|, MAX_RETRIES))
    decreases |errs|
  {
    if errs != [] {
      assert forall i :: 0 <= i < |errs[1..]| ==> errs[1..][i] == errs[i + 1];
      var s := OnRefusal(r, errs[0]);
      RefusalsBackOffLinearly(s.retries, errs[1..]);
      if r == MAX_RETRIES {
        assert Ramp(r, r) == [];
      }
    }
  }

  /** Whatever the errors, the counter never decreases, never passes the cap
      from below, and one retry is scheduled per increment. */
  lemma {:induction false} RetriesOnlyGrowToCap(r: nat, errs: seq<ErrorInfo>)
    requires r <= MAX_RETRIES
    ensures r <= RunErrors(r, errs).retries <= MAX_RETRIES
    ensures |RunErrors(r, errs).delays| == RunErrors(r, errs).retries - r
    decreases |errs|
  {
    if errs != [] {
      RetriesOnlyGrowToCap(OnRefusal(r, errs[0]).retries, errs[1..]);
    }
  }

  /** Errors that are not refusals change nothing and schedule nothing. */
  lemma {:induction false} OtherErrorsKeepRetries(r: nat, errs: seq<ErrorInfo>)
    requires forall i :: 0 <= i < |errs| ==> !errs[i].isConnRefused
    ensures RunErrors(r, errs) == Run(r, [])
    decreases |errs|
  {
    if errs != [] {
      assert forall i :: 0 <= i < |errs[1..]| ==> !errs[1..][i].isConnRefused by {
        forall i | 0 <= i < |errs[1..]| ensures !errs[1..][i].isConnRefused {
          assert errs[1..][i] == errs[i + 1];
        }
      }
      OtherErrorsKeepRetries(r, errs[1..]);
    }
  }
}
