/** The schedule of `wait_until_complete`: sleep, poll the status, stop on
    `done`, on an error or on the timeout, and double the interval after every
    third poll while it is below 64 seconds. Time is exact (`real`). */
module Backoff {
  import opened Values

  /** The interval stops doubling once it reaches this many seconds. */
  const MaxInterval: real := 64.0

  /** `min(1.0, timeout)` when a timeout is given, else 1 second. */
  function FirstInterval(timeout: Option<real>): (s: real)
    ensures timeout.None? ==> s == 1.0
    ensures timeout.Some? ==> s <= 1.0 && s <= timeout.value && (s == 1.0 || s == timeout.value)
  {
    if timeout.Some? && timeout.value < 1.0 then timeout.value else 1.0
  }

  /** The interval slept before poll `k` (counting from 0). After poll `k - 1`
      the counter `i` becomes `k`, and the interval doubles when `k` is a
      multiple of 3 and the interval is below 64. */
  function IntervalAt(first: real, k: nat): real
    decreases k
  {
    if k == 0 then first
    else
      var s := IntervalAt(first, k - 1);
      if k % 3 == 0 && s < MaxInterval then s + s else s
  }

  /** The interval of the next round, as the loop computes it. */
  lemma IntervalStep(first: real, k: nat)
    ensures (k + 1) % 3 == 0 && IntervalAt(first, k) < MaxInterval ==> IntervalAt(first, k + 1) == IntervalAt(first, k) + IntervalAt(first, k)
    ensures !((k + 1) % 3 == 0 && IntervalAt(first, k) < MaxInterval) ==> IntervalAt(first, k + 1) == IntervalAt(first, k)
  {
  }

  /** The time slept in the first `k` rounds. */
  function Elapsed(first: real, k: nat): real
    decreases k
  {
    if k == 0 then 0.0 else Elapsed(first, k - 1) + IntervalAt(first, k - 1)
  }

  /** `if timeout and elapsed >= timeout`: a timeout of 0 is falsy and never
      fires. */
  predicate TimesOut(timeout: Option<real>, elapsed: real)
  {
    timeout.Some? && timeout.value != 0.0 && elapsed >= timeout.value
  }

  /** The result of the k-th `status()` call; calls beyond the known ones fail
      like a broken session. */
  function Poll(polls: seq<Result<string>>, k: nat): Result<string>
  {
    if k < |polls| then polls[k] else Failure(TransportFailure)
  }

  /** Round `k` ends the wait: its sleep raises (negative interval), its poll
      raises, reports `done`, or the time slept so far has reached the
      timeout. */
  predicate Stops(timeout: Option<real>, first: real, polls: seq<Result<string>>, k: nat)
  {
    IntervalAt(first, k) < 0.0 ||
    Poll(polls, k).Failure? ||
    Poll(polls, k).value == "done" ||
    TimesOut(timeout, Elapsed(first, k + 1))
  }

  /** The first round from `k` on that ends the wait. */
  function FirstStop(timeout: Option<real>, first: real, polls: seq<Result<string>>, k: nat): (d: nat)
    requires k <= |polls|
    ensures k <= d <= |polls|
    ensures Stops(timeout, first, polls, d)
    ensures forall j :: k <= j < d ==> !Stops(timeout, first, polls, j)
    decreases |polls| - k
  {
    if Stops(timeout, first, polls, k) then k else FirstStop(timeout, first, polls, k + 1)
  }

  /** Any round that stops with none stopping before it is the first stop. */
  lemma FirstStopUnique(timeout: Option<real>, first: real, polls: seq<Result<string>>, d: nat)
    requires Stops(timeout, first, polls, d)
    requires forall j :: 0 <= j < d ==> !Stops(timeout, first, polls, j)
    ensures FirstStop(timeout, first, polls, 0) == d
  {
    var e := FirstStop(timeout, first, polls, 0);
    assert Stops(timeout, first, polls, e);
  }

  /** None of the rounds before `n` ends the wait. */
  predicate NoStopBefore(timeout: Option<real>, first: real, polls: seq<Result<string>>, n: nat)
  {
    forall j :: 0 <= j < n ==> !Stops(timeout, first, polls, j)
  }

  /** A round that does not stop extends the rounds that do not. */
  lemma NoStopStep(timeout: Option<real>, first: real, polls: seq<Result<string>>, n: nat)
    requires NoStopBefore(timeout, first, polls, n)
    requires !Stops(timeout, first, polls, n)
    ensures NoStopBefore(timeout, first, polls, n + 1)
  {
    forall j | 0 <= j < n + 1
      ensures !Stops(timeout, first, polls, j)
    {
      if j < n {
        assert !Stops(timeout, first, polls, j);
      }
    }
  }

  /** How a wait ended: the number of `status()` calls made (as many
      intervals were slept) and the outcome. */
  datatype Waited = Waited(polls: nat, outcome: Outcome)

  /** How the wait ends when round `d` is the one that stops it. */
  function StopAt(timeout: Option<real>, first: real, polls: seq<Result<string>>, timeoutError: Error, d: nat): Waited
  {
    if IntervalAt(first, d) < 0.0 then Waited(d, Fail(SleepError))
    else if Poll(polls, d).Failure? then Waited(d + 1, Fail(Poll(polls, d).error))
    else if Poll(polls, d).value == "done" then Waited(d + 1, Pass)
    else Waited(d + 1, Fail(timeoutError))
  }

  /** `wait_until_complete(timeout)` against the given sequence of status
      results; `timeoutError` is the `TimeoutError` it raises. */
  function Wait(timeout: Option<real>, polls: seq<Result<string>>, timeoutError: Error): Waited
  {
    var first := FirstInterval(timeout);
    StopAt(timeout, first, polls, timeoutError, FirstStop(timeout, first, polls, 0))
  }

  /** All intervals slept, in order. */
  function Intervals(first: real, n: nat): seq<real>
  {
    seq(n, k requires 0 <= k < n => IntervalAt(first, k))
  }

  function Pow2(n: nat): nat
  {
    if n == 0 then 1 else 2 * Pow2(n - 1)
  }

  /** Without a timeout below one second the intervals are 1, 1, 1, 2, 2, 2,
      4, ... doubling every third round up to 64, and never above 64. */
  lemma {:induction false} BackoffSchedule(k: nat)
    ensures IntervalAt(1.0, k) == Pow2(Min(k / 3, 6)) as real
    ensures 1.0 <= IntervalAt(1.0, k) <= MaxInterval
    decreases k
  {
    if k > 0 {
      BackoffSchedule(k - 1);
      if k % 3 == 0 {
        assert k / 3 == (k - 1) / 3 + 1;
      } else {
        assert k / 3 == (k - 1) / 3;
      }
    }
  }

  /** A non-negative first interval never shrinks. */
  lemma {:induction false} IntervalAtLeast(first: real, k: nat)
    requires 0.0 <= first
    ensures first <= IntervalAt(first, k)
    decreases k
  {
    if k > 0 {
      IntervalAtLeast(first, k - 1);
    }
  }

  /** Each round sleeps at least the first interval. */
  lemma {:induction false} ElapsedAtLeast(first: real, k: nat)
    requires 0.0 <= first
    ensures (k as real) * first <= Elapsed(first, k)
    decreases k
  {
    if k > 0 {
      ElapsedAtLeast(first, k - 1);
      IntervalAtLeast(first, k - 1);
      assert ((k - 1) as real) * first + first == (k as real) * first;
    }
  }

  /** A zero timeout gives a zero interval: the loop polls without sleeping. */
  lemma {:induction false} ZeroInterval(k: nat)
    ensures IntervalAt(0.0, k) == 0.0
    decreases k
  {
    if k > 0 {
      ZeroInterval(k - 1);
    }
  }

  /** A negative timeout makes the first `time.sleep` raise, before any poll. */
  lemma NegativeTimeout(t: real, polls: seq<Result<string>>, timeoutError: Error)
    requires t < 0.0
    ensures Wait(Some(t), polls, timeoutError) == Waited(0, Fail(SleepError))
  {
    assert Stops(Some(t), t, polls, 0);
    FirstStopUnique(Some(t), t, polls, 0);
  }

  /** With no timeout (or the falsy timeout 0) the wait never times out: it
      returns right after the first poll that says `done`, so the number of
      polls is that poll's position counting from 1, and an exception of
      `status()` ends it at once. */
  lemma NoTimeoutWaitsForDone(timeout: Option<real>, polls: seq<Result<string>>, timeoutError: Error)
    requires timeout.None? || timeout == Some(0.0)
    ensures var w := Wait(timeout, polls, timeoutError);
      && 0 < w.polls <= |polls| + 1
      && (forall j :: 0 <= j < w.polls - 1 ==> Poll(polls, j).Success? && Poll(polls, j).value != "done")
      && (Poll(polls, w.polls - 1).Failure? || Poll(polls, w.polls - 1).value == "done")
      && (w.outcome == Pass <==> Poll(polls, w.polls - 1) == Success("done"))
      && (Poll(polls, w.polls - 1).Failure? ==> w.outcome == Fail(Poll(polls, w.polls - 1).error))
  {
    var first := FirstInterval(timeout);
    var d := FirstStop(timeout, first, polls, 0);
    IntervalAtLeast(first, d);
    forall j | 0 <= j < d
      ensures Poll(polls, j).Success? && Poll(polls, j).value != "done"
    {
      assert !Stops(timeout, first, polls, j);
    }
  }

  /** A positive timeout fires at the first non-done poll after which the time
      slept has reached it, and not earlier. */
  lemma TimeoutIsFirstCrossing(t: real, polls: seq<Result<string>>, timeoutError: Error)
    requires 0.0 < t
    ensures var w := Wait(Some(t), polls, timeoutError);
      && 0 < w.polls
      && (forall j :: 0 <= j < w.polls - 1 ==>
            Poll(polls, j).Success? && Poll(polls, j).value != "done" && Elapsed(FirstInterval(Some(t)), j + 1) < t)
      && (Poll(polls, w.polls - 1).Success? && Poll(polls, w.polls - 1).value != "done" ==>
            w.outcome == Fail(timeoutError) && t <= Elapsed(FirstInterval(Some(t)), w.polls))
      && (Poll(polls, w.polls - 1).Failure? ==> w.outcome == Fail(Poll(polls, w.polls - 1).error))
      && (Poll(polls, w.polls - 1) == Success("done") ==> w.outcome == Pass)
  {
    var first := FirstInterval(Some(t));
    var d := FirstStop(Some(t), first, polls, 0);
    IntervalAtLeast(first, d);
    forall j | 0 <= j < d
      ensures Poll(polls, j).Success? && Poll(polls, j).value != "done" && Elapsed(first, j + 1) < t
    {
      assert !Stops(Some(t), first, polls, j);
    }
  }

  /** A timeout of at most one second is reached by the first sleep: the wait
      polls exactly once (`wait_until_complete(timeout=0.1)` raises
      `TimeoutError` after one poll that is not `done`). */
  lemma ShortTimeout(t: real, polls: seq<Result<string>>, timeoutError: Error)
    requires 0.0 < t <= 1.0
    ensures var w := Wait(Some(t), polls, timeoutError);
      && w.polls == 1
      && (Poll(polls, 0).Success? && Poll(polls, 0).value != "done" ==> w.outcome == Fail(timeoutError))
      && (Poll(polls, 0) == Success("done") ==> w.outcome == Pass)
      && (Poll(polls, 0).Failure? ==> w.outcome == Fail(Poll(polls, 0).error))
  {
    assert Stops(Some(t), t, polls, 0);
    FirstStopUnique(Some(t), t, polls, 0);
  }

  /** With a timeout of t >= 1 second the wait makes at most ceil(t) polls. */
  lemma TimeoutBounded(t: real, polls: seq<Result<string>>, timeoutError: Error, n: nat)
    requires 1.0 <= t <= n as real
    ensures Wait(Some(t), polls, timeoutError).polls <= n
  {
    ElapsedAtLeast(1.0, n);
    assert Stops(Some(t), 1.0, polls, n - 1);
  }
}
