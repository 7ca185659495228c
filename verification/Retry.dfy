/** Retrying a failing call with growing delays. Times are in milliseconds; timers are exact. */
module Retry {

  type Duration = x: real | x >= 0.0

  datatype Limit = Infinity | At(value: real)

  datatype Options = Options(maxAttempts: int, timeout: Limit, factor: real, minDelay: real, maxDelay: Limit)

  const DEFAULTS := Options(10, Infinity, 2.0, 1174.0, Infinity)

  /** How one call of the retried function goes; an error is retried if the predicate of the caller says so. */
  datatype Result = Success | Failure(retried: bool)

  datatype Call = Call(duration: Duration, result: Result)

  datatype Outcome = Resolved | Rejected | TooManyAttempts(tries: nat) | TimedOut(time: real)

  datatype Attempt = Attempt(start: real, end: real)

  predicate Reached(time: real, limit: Limit) {
    limit.At? && time >= limit.value
  }

  function Min(x: real, limit: Limit): real {
    if limit.At? && limit.value < x then limit.value else x
  }

  function Max(x: real, y: real): real {
    if x < y then y else x
  }

  function Pow(x: real, n: nat): real {
    if n == 0 then 1.0 else x * Pow(x, n - 1)
  }

  function Backoff(o: Options, tries: nat): real {
    if tries == 0 then 0.0 else Min(o.minDelay * Pow(o.factor, tries - 1), o.maxDelay)
  }

  /** The sum of the first `k` backoffs. */
  function TotalBackoff(o: Options, k: nat): real {
    if k == 0 then 0.0 else TotalBackoff(o, k - 1) + Backoff(o, k)
  }

  /** When the attempt after this one is due. */
  function NextStart(o: Options, last: Attempt, tries: nat): real {
    Max(last.end, last.start + Backoff(o, tries))
  }

  /** After `tries` attempts another one may start at this time. */
  ghost predicate GoesOn(o: Options, fn: nat -> Call, first: real, last: Attempt, tries: nat, start: real) {
    && 0 < tries < o.maxAttempts && fn(tries - 1).result == Failure(true)
    && start == NextStart(o, last, tries)
    && !Reached(start - first, o.timeout)
  }

  /** The attempts of a run so far. */
  ghost predicate IsRun(o: Options, fn: nat -> Call, run: seq<Attempt>) {
    && (forall k: nat | k < |run| :: run[k].end == run[k].start + fn(k).duration)
    && (forall k | 0 < k < |run| :: GoesOn(o, fn, run[0].start, run[k - 1], k, run[k].start))
  }

  /** What ends the retries after `tries` attempts, the last of which was this one. */
  ghost predicate StopsWith(o: Options, fn: nat -> Call, first: real, last: Attempt, tries: nat, outcome: Outcome)
    requires tries > 0
  {
    var time := NextStart(o, last, tries) - first;
    match fn(tries - 1).result
    case Success => outcome == Resolved
    case Failure(retried) =>
      if !retried then outcome == Rejected
      else if tries >= o.maxAttempts then outcome == TooManyAttempts(tries)
      else Reached(time, o.timeout) && outcome == TimedOut(time)
  }

  ghost predicate IsWholeRun(o: Options, fn: nat -> Call, run: seq<Attempt>, outcome: Outcome) {
    run != [] && IsRun(o, fn, run) && StopsWith(o, fn, run[0].start, run[|run| - 1], |run|, outcome)
  }

  lemma {:induction false} Append(o: Options, fn: nat -> Call, run: seq<Attempt>, next: Attempt)
    requires IsRun(o, fn, run) && next.end == next.start + fn(|run|).duration
    requires run != [] ==> GoesOn(o, fn, run[0].start, run[|run| - 1], |run|, next.start)
    ensures IsRun(o, fn, run + [next])
  {
  }

  lemma RestOfBackoff(start: real, end: real, backoff: real)
    ensures end + Max(backoff - (end - start), 0.0) == Max(end, start + backoff)
  {
  }

  class RetryOperation {
    const options: Options
    const fn: nat -> Call
    const retryStart: real
    var now: real
    var tries: nat
    var run: seq<Attempt>

    ghost predicate Valid()
      reads this
    {
      && tries == |run| && IsRun(options, fn, run)
      && (run != [] ==> run[0].start == retryStart)
    }

    /** The next attempt is due now. */
    ghost predicate Due()
      reads this
    {
      if run == [] then now == retryStart else GoesOn(options, fn, retryStart, run[|run| - 1], |run|, now)
    }

    constructor (options: Options, fn: nat -> Call, now: real)
      ensures Valid() && Due() && this.options == options && this.fn == fn && retryStart == now && run == []
    {
      this.options, this.fn, this.retryStart, this.now := options, fn, now, now;
      tries, run := 0, [];
    }

    /** One call of the function. */
    method CallOnce() returns (attemptStart: real, result: Result)
      requires Valid() && Due()
      modifies this
      ensures Valid() && run == old(run) + [Attempt(attemptStart, now)] && result == fn(tries - 1).result
    {
      attemptStart := now;
      var call := fn(tries);
      now := now + call.duration;
      Append(options, fn, run, Attempt(attemptStart, now));
      run := run + [Attempt(attemptStart, now)];
      tries := tries + 1;
      result := call.result;
    }

    method AttemptOnce() returns (outcome: Outcome)
      requires Valid() && Due()
      modifies this
      ensures Valid() && IsWholeRun(options, fn, run, outcome)
      decreases options.maxAttempts - tries
    {
      var attemptStart, result := CallOnce();
      if result == Success {
        return Resolved;
      }
      if !result.retried {
        return Rejected;
      }
      var backoff := Backoff(options, tries);
      var delay := Max(backoff - (now - attemptStart), 0.0);
      var time := now + delay - retryStart;
      RestOfBackoff(attemptStart, now, backoff);
      if tries >= options.maxAttempts {
        return TooManyAttempts(tries);
      }
      if Reached(time, options.timeout) {
        return TimedOut(time);
      }
      now := now + delay;
      outcome := AttemptOnce();
    }
  }

  /** Retries the function from now on; the log shows when it was called. */
  method RetryCalls(options: Options, fn: nat -> Call, now: real) returns (outcome: Outcome, run: seq<Attempt>)
    ensures IsWholeRun(options, fn, run, outcome) && run[0].start == now
  {
    var operation := new RetryOperation(options, fn, now);
    outcome := operation.AttemptOnce();
    run := operation.run;
  }

  // ---- Timing ----

  /** The function is called at most `maxAttempts` times (but once in any case), and never again once the
      time is up. */
  lemma {:induction false} AttemptsAreBounded(o: Options, fn: nat -> Call, run: seq<Attempt>)
    requires IsRun(o, fn, run)
    ensures |run| <= 1 || |run| <= o.maxAttempts
    ensures forall k | 1 <= k < |run| :: !Reached(run[k].start - run[0].start, o.timeout)
  {
    forall k | 1 <= k < |run| ensures k < o.maxAttempts && !Reached(run[k].start - run[0].start, o.timeout) {
      assert GoesOn(o, fn, run[0].start, run[k - 1], k, run[k].start);
    }
    if |run| > 1 {
      var last := |run| - 1;
      assert run[last] == run[last] && last < o.maxAttempts;
    }
  }

  /** Every attempt before the `k`th took no longer than the backoff after it. */
  ghost predicate Brief(o: Options, run: seq<Attempt>, k: nat)
    requires k < |run|
  {
    forall i: nat | i < k :: run[i].end - run[i].start <= Backoff(o, i + 1)
  }

  /** Retry `k` starts no earlier than the sum of the backoffs, and exactly then if no attempt outlasted its
      backoff. */
  lemma {:induction false} StartsAreSpaced(o: Options, fn: nat -> Call, run: seq<Attempt>, k: nat)
    requires IsRun(o, fn, run) && k < |run|
    ensures run[k].start - run[0].start >= TotalBackoff(o, k)
    ensures run[k].start - run[0].start == TotalBackoff(o, k) <==> Brief(o, run, k)
  {
    if k > 0 {
      StartsAreSpaced(o, fn, run, k - 1);
      assert GoesOn(o, fn, run[0].start, run[k - 1], k, run[k].start);
      if Brief(o, run, k - 1) && run[k - 1].end - run[k - 1].start <= Backoff(o, k) {
        assert Brief(o, run, k);
      }
    }
  }

  /** The options, the function and the start determine the whole run. */
  lemma {:induction false} RunIsDetermined(o: Options, fn: nat -> Call, a: seq<Attempt>, x: Outcome, b: seq<Attempt>, y: Outcome)
    requires IsWholeRun(o, fn, a, x) && IsWholeRun(o, fn, b, y) && a[0].start == b[0].start
    ensures a == b && x == y
  {
    var n := if |a| <= |b| then |a| else |b|;
    SamePrefix(o, fn, a, b, n);
    StopIsLast(o, fn, a, x, b);
    StopIsLast(o, fn, b, y, a);
    assert a[..|a|] == a && b[..|b|] == b;
  }

  lemma {:induction false} StopIsLast(o: Options, fn: nat -> Call, a: seq<Attempt>, x: Outcome, b: seq<Attempt>)
    requires IsWholeRun(o, fn, a, x) && IsRun(o, fn, b) && (|a| <= |b| ==> a[..|a|] == b[..|a|])
    ensures |b| <= |a|
  {
    var n := |a|;
    assert n < |b| ==> a[0] == a[..n][0] == b[0] && a[n - 1] == a[..n][n - 1] == b[n - 1];
    assert n < |b| ==> GoesOn(o, fn, b[0].start, b[n - 1], n, b[n].start);
  }

  lemma {:induction false} SamePrefix(o: Options, fn: nat -> Call, a: seq<Attempt>, b: seq<Attempt>, n: nat)
    requires IsRun(o, fn, a) && IsRun(o, fn, b) && 1 <= n <= |a| && n <= |b|
    requires a[0].start == b[0].start
    ensures a[..n] == b[..n]
  {
    if n == 1 {
      assert a[0] == b[0];
    } else {
      SamePrefix(o, fn, a, b, n - 1);
      assert a[n - 2] == a[..n - 1][n - 2] == b[n - 2];
      assert GoesOn(o, fn, a[0].start, a[n - 2], n - 1, a[n - 1].start);
      assert GoesOn(o, fn, b[0].start, b[n - 2], n - 1, b[n - 1].start);
      assert a[n - 1] == b[n - 1];
      assert a[..n] == a[..n - 1] + [a[n - 1]] && b[..n] == b[..n - 1] + [b[n - 1]];
    }
  }

  /** Without a cap the backoffs are a geometric series. */
  lemma {:induction false} BackoffIsGeometric(o: Options, k: nat)
    requires o.maxDelay == Infinity
    ensures TotalBackoff(o, k) * (o.factor - 1.0) == o.minDelay * (Pow(o.factor, k) - 1.0)
  {
    if k == 0 {
      assert 0.0 * (o.factor - 1.0) == 0.0 && o.minDelay * 0.0 == 0.0;
    } else {
      BackoffIsGeometric(o, k - 1);
      Telescope(TotalBackoff(o, k - 1), o.minDelay, o.factor, Pow(o.factor, k - 1), TotalBackoff(o, k), Pow(o.factor, k));
    }
  }

  lemma Telescope(total: real, d: real, f: real, p: real, total': real, p': real)
    requires total * (f - 1.0) == d * (p - 1.0)
    requires total' == total + d * p && p' == f * p
    ensures total' * (f - 1.0) == d * (p' - 1.0)
  {
  }

  /** The ten attempts of the defaults, each short enough, span 1174 * (2^9 - 1) ms, just under ten minutes. */
  lemma {:induction false} DefaultSpan(fn: nat -> Call, run: seq<Attempt>)
    requires IsRun(DEFAULTS, fn, run) && |run| == 10 && Brief(DEFAULTS, run, 9)
    ensures run[9].start - run[0].start == 1174.0 * 511.0
  {
    StartsAreSpaced(DEFAULTS, fn, run, 9);
    BackoffIsGeometric(DEFAULTS, 9);
    var two: real :| two == 2.0;
    assert Pow(two, 1) == 2.0 && Pow(two, 2) == 4.0 && Pow(two, 3) == 8.0 && Pow(two, 4) == 16.0;
    assert Pow(two, 5) == 32.0 && Pow(two, 6) == 64.0 && Pow(two, 7) == 128.0 && Pow(two, 8) == 256.0;
  }

  // ---- What a run comes to ----

  /** The outcome tells how the run ended: with a success, with an error that is not retried, with the attempts used
      up, or with a next attempt that would be due too late. */
  lemma {:induction false} OutcomeTells(o: Options, fn: nat -> Call, run: seq<Attempt>, outcome: Outcome)
    requires IsWholeRun(o, fn, run, outcome)
    ensures var n := |run|;
      var last := run[n - 1];
      var backoff := Backoff(o, n);
      var due := if last.start + backoff > last.end then last.start + backoff else last.end;
      && n > 0
      && (outcome == Resolved <==> fn(n - 1).result == Success)
      && (outcome == Rejected <==> fn(n - 1).result == Failure(false))
      && (outcome.TooManyAttempts? <==> fn(n - 1).result == Failure(true) && n >= o.maxAttempts)
      && (outcome.TooManyAttempts? ==> outcome.tries == n)
      && (outcome.TimedOut? ==> o.timeout.At? && outcome.time == due - run[0].start >= o.timeout.value)
  {
  }

  /** Every attempt before the last failed, was to be retried, and was followed in time, at once if it took longer than
      the backoff, and otherwise after that. */
  lemma {:induction false} RetriesTell(o: Options, fn: nat -> Call, run: seq<Attempt>, k: nat)
    requires IsRun(o, fn, run) && k + 1 < |run|
    ensures fn(k).result == Failure(true) && k + 1 < o.maxAttempts
    ensures var backoff := run[k].start + Backoff(o, k + 1);
      run[k + 1].start == if backoff > run[k].end then backoff else run[k].end
    ensures o.timeout.At? ==> run[k + 1].start - run[0].start < o.timeout.value
  {
    assert GoesOn(o, fn, run[0].start, run[k], k + 1, run[k + 1].start);
  }

  /** A backoff grows by the factor with every try until it reaches the cap. */
  lemma BackoffIsCapped(o: Options, tries: nat)
    requires tries > 0
    ensures var grown := o.minDelay * Pow(o.factor, tries - 1);
      Backoff(o, tries) == if o.maxDelay.At? && o.maxDelay.value <= grown then o.maxDelay.value else grown
    ensures Pow(o.factor, 0) == 1.0 && Pow(o.factor, tries) == o.factor * Pow(o.factor, tries - 1)
  {
  }

  /** Without a timeout a function that always fails is called as often as allowed, and one that succeeds in time is
      called until it does. */
  lemma {:induction false} CallsAreMade(o: Options, fn: nat -> Call, run: seq<Attempt>, outcome: Outcome, k: nat)
    requires IsWholeRun(o, fn, run, outcome) && o.timeout == Infinity
    requires forall i | 0 <= i < k :: fn(i).result == Failure(true)
    ensures fn(k).result == Success && (k == 0 || k < o.maxAttempts) ==> |run| == k + 1 && outcome == Resolved
    ensures k > 0 && k >= o.maxAttempts ==> |run| <= k && (|run| == o.maxAttempts || |run| == 1) && outcome == TooManyAttempts(|run|)
  {
    OutcomeTells(o, fn, run, outcome);
    AttemptsAreBounded(o, fn, run);
    var n := |run|;
    if k + 1 < n { RetriesTell(o, fn, run, k); }
    assert n - 1 < k ==> fn(n - 1).result == Failure(true);
  }
}
