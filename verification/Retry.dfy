/**
 Bounded retry with full-jitter backoff (internal/booking/service.go:62-119). Durations are
 integers counting nanoseconds. What the wrapped call returns, when the context is found
 cancelled and what the random generator draws are parameters.
 */
module Retry {
  import opened Options

  const BASE_BACKOFF := 10_000_000
  const MAX_BACKOFF := 1_000_000_000
  const MAX_SHIFT := 20
  const INT64_MAX := 0x7fff_ffff_ffff_ffff

  datatype Outcome<+T, +E> = Ok(value: T) | Retryable(error: E) | Fatal(error: E)

  datatype Result<+T, +E> =
    | Success(value: T)
    | Failure(error: E)
    | Cancelled(last: Option<E>)

  // ---------------------------------------------------------------- backoff

  function Pow2(n: nat): nat {
    if n == 0 then 1 else 2 * Pow2(n - 1)
  }

  /** The upper end of the jitter (backoffFor): the shift is clamped, then the product is. */
  function Ceiling(attempt: nat): int {
    var shift := if attempt > MAX_SHIFT then MAX_SHIFT else attempt;
    var ceiling := BASE_BACKOFF * Pow2(shift);
    if ceiling <= 0 || ceiling > MAX_BACKOFF then MAX_BACKOFF else ceiling
  }

  lemma {:induction false} Pow2Grows(m: nat, n: nat)
    requires m <= n
    ensures 1 <= Pow2(m) <= Pow2(n)
    decreases n - m, m
  {
    if m < n {
      Pow2Grows(m, n - 1);
    } else if m > 0 {
      Pow2Grows(m - 1, m - 1);
    }
  }

  lemma Pow2Facts()
    ensures Pow2(6) == 64 && Pow2(7) == 128 && Pow2(20) == 1048576
  {
    assert Pow2(6) == 64;
    assert Pow2(13) == 8192;
  }

  /** The clamped shift never overflows int64, and clamping it loses nothing: the ceiling is
      min(10ms * 2^attempt, 1s) for every attempt. */
  lemma CeilingIsMin(attempt: nat)
    ensures BASE_BACKOFF * Pow2(if attempt > MAX_SHIFT then MAX_SHIFT else attempt) <= INT64_MAX
    ensures Ceiling(attempt) == if BASE_BACKOFF * Pow2(attempt) < MAX_BACKOFF then BASE_BACKOFF * Pow2(attempt) else MAX_BACKOFF
    ensures 0 < Ceiling(attempt) <= MAX_BACKOFF
  {
    Pow2Facts();
    if attempt > MAX_SHIFT {
      Pow2Grows(MAX_SHIFT, attempt);
    } else {
      Pow2Grows(attempt, MAX_SHIFT);
      Pow2Grows(0, attempt);
    }
  }

  /** The longest that `n` backoffs can sleep. */
  function SleepBound(n: nat): int {
    if n == 0 then 0 else SleepBound(n - 1) + Ceiling(n - 1)
  }

  lemma {:induction false} SleepBoundGrows(m: nat, n: nat)
    requires m <= n
    ensures SleepBound(m) <= SleepBound(n)
    decreases n
  {
    if m < n {
      SleepBoundGrows(m, n - 1);
      OneMoreSleep(n - 1);
    }
  }

  lemma OneMoreSleep(n: nat)
    ensures SleepBound(n) <= SleepBound(n + 1)
  {
    CeilingIsMin(n);
  }

  /** The first `n` sleeps together. */
  function TotalNap(nap: nat -> int, n: nat): int {
    if n == 0 then 0 else TotalNap(nap, n - 1) + nap(n - 1)
  }

  /** Every backoff sleeps within its own jitter. */
  ghost predicate Jittered(nap: nat -> int) {
    forall k: nat {:trigger Ceiling(k)} :: 0 <= nap(k) <= Ceiling(k)
  }

  /** Up to `bound` backoffs, each within its own jitter, sleep at most the sum of the ceilings. */
  lemma {:induction false} NapsStayWithin(nap: nat -> int, n: nat, bound: nat)
    requires n <= bound && Jittered(nap)
    ensures 0 <= TotalNap(nap, n) <= SleepBound(n) <= SleepBound(bound)
  {
    SleepBoundGrows(n, bound);
    if n > 0 {
      NapsStayWithin(nap, n - 1, n - 1);
    }
  }

  lemma JitterBounds(nap: nat -> int, n: nat, bound: nat)
    requires n <= bound
    ensures Jittered(nap) ==> 0 <= TotalNap(nap, n) <= SleepBound(bound)
  {
    if Jittered(nap) {
      NapsStayWithin(nap, n, bound);
    }
  }

  lemma LateCeiling(n: nat)
    requires n >= 7
    ensures Ceiling(n) == MAX_BACKOFF
  {
    CeilingIsMin(n);
    Pow2Facts();
    Pow2Grows(7, n);
  }

  /** From seven retries on: 1270ms for the first seven, one second for each further one. */
  lemma {:induction false} SleepBoundClosedForm(n: nat)
    requires n >= 7
    ensures SleepBound(n) == 1_270_000_000 + (n - 7) * MAX_BACKOFF
  {
    if n == 7 {
      assert SleepBound(3) == 70_000_000;
      assert Ceiling(3) == 80_000_000 && Ceiling(4) == 160_000_000;
      assert Ceiling(5) == 320_000_000 && Ceiling(6) == 640_000_000;
    } else {
      SleepBoundClosedForm(n - 1);
      LateCeiling(n - 1);
    }
  }

  // ---------------------------------------------------------------- the loop

  function Max(a: int, b: int): int {
    if a > b then a else b
  }

  /** withRetry. `fn(k)` is what the k-th call returns, `done(k)` whether the context is found cancelled
      before it, `woken(k)` whether cancellation ends the sleep after it, and `nap(k)` how long that sleep
      took. The number of calls and the time slept are returned beside the result. */
  method WithRetry<T, E>(maxRetries: int, fn: nat -> Outcome<T, E>, done: nat -> bool, woken: nat -> bool, nap: nat -> int)
      returns (r: Result<T, E>, calls: nat, slept: int)
    ensures calls <= Max(0, maxRetries) + 1
    ensures forall k :: 0 <= k < calls - 1 ==> fn(k).Retryable?
    ensures r.Success? <==> calls > 0 && fn(calls - 1).Ok?
    ensures match r
            case Success(v) => fn(calls - 1) == Ok(v)
            case Failure(e) => calls > 0 && (fn(calls - 1) == Fatal(e)
                                             || (fn(calls - 1) == Retryable(e) && calls == Max(0, maxRetries) + 1))
            case Cancelled(last) =>
              && (done(calls) || (calls > 0 && woken(calls - 1)))
              && last == if calls == 0 then None else Some(fn(calls - 1).error)
    ensures slept == TotalNap(nap, if r.Cancelled? then calls else calls - 1)
    ensures r.Cancelled? ==> calls <= Max(0, maxRetries)
    ensures Jittered(nap) ==> 0 <= slept <= SleepBound(Max(0, maxRetries))
  {
    var bound := maxRetries;
    if bound < 0 {
      bound := 0;
    }
    calls, slept := 0, 0;
    var lastErr: Option<E> := None;
    var attempt := 0;
    while attempt <= bound
      invariant 0 <= attempt <= bound && calls == attempt
      invariant forall k :: 0 <= k < attempt ==> fn(k).Retryable?
      invariant lastErr == if attempt == 0 then None else Some(fn(attempt - 1).error)
      invariant slept == TotalNap(nap, attempt)
      decreases bound - attempt
    {
      if done(attempt) {
        JitterBounds(nap, attempt, bound);
        return Cancelled(lastErr), calls, slept;
      }
      JitterBounds(nap, attempt, bound);
      var out := fn(attempt);
      calls := calls + 1;
      if out.Ok? {
        return Success(out.value), calls, slept;
      }
      lastErr := Some(out.error);
      if out.Fatal? {
        return Failure(out.error), calls, slept;
      }
      if attempt == bound {
        break;
      }
      slept := slept + nap(attempt);
      if woken(attempt) {
        JitterBounds(nap, attempt + 1, bound);
        return Cancelled(lastErr), calls, slept;
      }
      attempt := attempt + 1;
    }
    r := Failure(lastErr.value);
  }
}
