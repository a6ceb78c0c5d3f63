/**
 The retry loop of `BackoffExecution.execute` (`aiomisc/backoff.py`).  What the wrapped function, the
 `giveup` predicate, the pauses, the deadline and the caller's cancellation do is given as a trace
 with one entry per attempt.  A timeout of a single attempt is a failure like any other, and always a
 retryable one.
 */
module Backoff {
  import opened Basics

  /** What `giveup` does with the exception. */
  datatype GiveUp = Declines | Agrees | Fails

  /** How the pause after a failed attempt ends. */
  datatype Pause = Slept | PauseCancelled | PauseDeadline

  datatype Attempt<+T> =
    | Returns(value: T)
    | Raises(exc: int, retryable: bool, giveup: GiveUp, pause: Pause)
    | IsCancelled
    | HitsDeadline

  datatype Outcome<+T> = Value(value: T) | Raised(exc: int) | DeadlineTimeout | Cancelled | Unfinished

  datatype Stats = Stats(attempts: nat, done: nat, cancels: nat, errors: nat)

  /** The loop goes on after this attempt, the `tries`-th of the execution. */
  predicate GoesOn<T>(maxTries: Option<nat>, tries: nat, a: Attempt<T>) {
    && a.Raises? && a.retryable
    && (maxTries.Some? ==> tries < maxTries.value)
    && a.giveup.Declines? && a.pause.Slept?
  }

  /** Attempt `k` is the first after which the loop does not go on. */
  ghost predicate StopsAt<T>(maxTries: Option<nat>, before: nat, trace: seq<Attempt<T>>, k: nat) {
    && k < |trace|
    && (forall i :: 0 <= i < k ==> GoesOn(maxTries, before + i + 1, trace[i]))
    && !GoesOn(maxTries, before + k + 1, trace[k])
  }

  /** What the caller sees if the loop stops at this attempt, with `last` the failure recorded before. */
  function Surfaces<T>(maxTries: Option<nat>, tries: nat, last: Option<int>, a: Attempt<T>): Outcome<T> {
    match a
    case Returns(v) => Value(v)
    case IsCancelled => Cancelled
    case HitsDeadline => if last.Some? then Raised(last.value) else DeadlineTimeout
    case Raises(e, retryable, giveup, pause) =>
      if Retires(maxTries, tries, a) || !pause.PauseCancelled? then Raised(e) else Cancelled
  }

  /** The attempt ends the loop by itself, before any pause. */
  predicate Retires<T>(maxTries: Option<nat>, tries: nat, a: Attempt<T>)
    requires a.Raises?
  {
    !a.retryable || (maxTries.Some? && maxTries.value <= tries) || !a.giveup.Declines?
  }

  /** The failure on record before attempt `k` of the trace. */
  function LastBefore<T>(last: Option<int>, trace: seq<Attempt<T>>, k: nat): Option<int>
    requires k <= |trace| && forall i :: 0 <= i < k ==> trace[i].Raises?
  {
    if k == 0 then last else Some(trace[k - 1].exc)
  }

  function IsRetryable<T>(a: Attempt<T>): nat {
    if a.Raises? && a.retryable then 1 else 0
  }

  function IsInterrupted<T>(a: Attempt<T>): nat {
    if a.IsCancelled? || a.HitsDeadline? then 1 else 0
  }

  /** How many of the attempts failed with a retryable exception. */
  function Retryable<T>(trace: seq<Attempt<T>>): nat {
    Sum(IsRetryable<T>, trace)
  }

  /** How many of the attempts were cancelled, by the caller or by the deadline. */
  function Interrupted<T>(trace: seq<Attempt<T>>): nat {
    Sum(IsInterrupted<T>, trace)
  }

  /** The attempts before `n` failed in a way that lets the loop go on. */
  ghost predicate AllRetried<T>(maxTries: Option<nat>, before: nat, trace: seq<Attempt<T>>, n: nat)
    requires n <= |trace|
  {
    forall i :: 0 <= i < n ==> GoesOn(maxTries, before + i + 1, trace[i])
  }

  lemma AllRetriedMeans<T>(maxTries: Option<nat>, before: nat, trace: seq<Attempt<T>>, n: nat)
    requires n <= |trace| && AllRetried(maxTries, before, trace, n)
    ensures forall i :: 0 <= i < n ==>
              && trace[i].Raises? && trace[i].retryable && trace[i].giveup.Declines? && trace[i].pause.Slept?
              && (maxTries.Some? ==> before + i + 1 < maxTries.value)
  {
    forall i | 0 <= i < n
      ensures && trace[i].Raises? && trace[i].retryable && trace[i].giveup.Declines? && trace[i].pause.Slept?
              && (maxTries.Some? ==> before + i + 1 < maxTries.value)
    {
      assert GoesOn(maxTries, before + i + 1, trace[i]);
    }
  }

  lemma StopMeans<T>(maxTries: Option<nat>, before: nat, trace: seq<Attempt<T>>, last: Option<int>, k: nat)
    requires k < |trace| && AllRetried(maxTries, before, trace, k) && !GoesOn(maxTries, before + k + 1, trace[k])
    ensures forall i :: 0 <= i < k ==> trace[i].Raises?
    ensures StopsAt(maxTries, before, trace, k)
    ensures var a, tries := trace[k], before + k + 1;
            var paused := && a.Raises? && a.retryable && a.giveup.Declines?
                          && (maxTries.Some? ==> tries < maxTries.value);
            var r := Surfaces(maxTries, tries, LastBefore(last, trace, k), a);
            && !(paused && a.pause.Slept?)
            && !r.Unfinished?
            && (r.Value? <==> a.Returns?) && (a.Returns? ==> r.value == a.value)
            && (r.Cancelled? <==> a.IsCancelled? || (paused && a.pause.PauseCancelled?))
            && (a.Raises? && !(paused && a.pause.PauseCancelled?) ==> r == Raised(a.exc))
            && (a.HitsDeadline? && 0 < k ==> r == Raised(trace[k - 1].exc))
            && (a.HitsDeadline? && k == 0 ==> r == if last.Some? then Raised(last.value) else DeadlineTimeout)
  {
    AllRetriedMeans(maxTries, before, trace, k);
  }

  class BackoffExecution<T> {
    const maxTries: Option<nat>
    var lastException: Option<int>
    var totalTries: nat
    var statistic: Stats

    constructor (maxTries: Option<nat>, statistic: Stats)
      ensures this.maxTries == maxTries && this.statistic == statistic && lastException == None && totalTries == 0
    {
      this.maxTries, this.statistic := maxTries, statistic;
      lastException, totalTries := None, 0;
    }

    /** The body of one turn of the loop; `stop` says whether it leaves the loop, and how. */
    method Turn(a: Attempt<T>) returns (stop: bool, r: Outcome<T>)
      modifies this`lastException, this`totalTries, this`statistic
      ensures totalTries == old(totalTries) + 1
      ensures stop <==> !GoesOn(maxTries, totalTries, a)
      ensures stop ==> r == Surfaces(maxTries, totalTries, old(lastException), a)
      ensures lastException == if a.Raises? then Some(a.exc) else old(lastException)
      ensures statistic.attempts == old(statistic.attempts) + 1 && statistic.done == old(statistic.done) + 1
      ensures statistic.errors == old(statistic.errors) + if a.Raises? && a.retryable then 1 else 0
      ensures statistic.cancels == old(statistic.cancels) + if a.IsCancelled? || a.HitsDeadline? then 1 else 0
    {
      statistic := statistic.(attempts := statistic.attempts + 1);
      totalTries := totalTries + 1;
      stop := true;
      match a {
        case Returns(v) =>
          r := Value(v);
        case IsCancelled =>
          statistic := statistic.(cancels := statistic.cancels + 1);
          r := Cancelled;
        case HitsDeadline =>
          statistic := statistic.(cancels := statistic.cancels + 1);
          r := if lastException.Some? then Raised(lastException.value) else DeadlineTimeout;
        case Raises(e, retryable, giveup, pause) =>
          lastException := Some(e);
          r := Raised(e);
          if retryable {
            statistic := statistic.(errors := statistic.errors + 1);
            var exhausted := maxTries.Some? && totalTries >= maxTries.value;
            if !exhausted && giveup.Declines? {
              stop := !pause.Slept?;
              if pause.PauseCancelled? {
                r := Cancelled;
              }
            }
          }
      }
      statistic := statistic.(done := statistic.done + 1);
    }

    /** `execute`.  Every attempt but the last failed with a retryable exception, within the limit, with
        `giveup` declining and the pause slept through, and the last did not; what surfaces is decided by
        the last attempt alone, except that the deadline's timeout gives way to the failure before it. */
    method Execute(trace: seq<Attempt<T>>) returns (r: Outcome<T>, attempts: nat)
      modifies this
      ensures attempts <= |trace| && totalTries == old(totalTries) + attempts
      ensures statistic.attempts == old(statistic.attempts) + attempts
      ensures statistic.done == old(statistic.done) + attempts
      ensures statistic.errors == old(statistic.errors) + Retryable(trace[..attempts])
      ensures statistic.cancels == old(statistic.cancels) + Interrupted(trace[..attempts])
      ensures forall i :: 0 <= i < (if r.Unfinished? then attempts else attempts - 1) ==>
                && trace[i].Raises? && trace[i].retryable && trace[i].giveup.Declines? && trace[i].pause.Slept?
                && (maxTries.Some? ==> old(totalTries) + i + 1 < maxTries.value)
      ensures r.Unfinished? ==> attempts == |trace|
      ensures !r.Unfinished? ==> 0 < attempts
      ensures !r.Unfinished? ==>
                var a := trace[attempts - 1];
                !(&& a.Raises? && a.retryable && a.giveup.Declines? && a.pause.Slept?
                  && (maxTries.Some? ==> totalTries < maxTries.value))
      ensures !r.Unfinished? ==>
                var a := trace[attempts - 1];
                var paused := && a.Raises? && a.retryable && a.giveup.Declines?
                              && (maxTries.Some? ==> totalTries < maxTries.value);
                && (r.Value? <==> a.Returns?) && (a.Returns? ==> r.value == a.value)
                && (r.Cancelled? <==> a.IsCancelled? || (paused && a.pause.PauseCancelled?))
                && (a.Raises? && !(paused && a.pause.PauseCancelled?) ==> r == Raised(a.exc))
                && (a.HitsDeadline? && 1 < attempts ==> r == Raised(trace[attempts - 2].exc))
                && (a.HitsDeadline? && attempts == 1 ==>
                      r == if old(lastException).Some? then Raised(old(lastException).value) else DeadlineTimeout)
      ensures !r.Unfinished? ==>
                && StopsAt(maxTries, old(totalTries), trace, attempts - 1)
                && r == Surfaces(maxTries, totalTries, LastBefore(old(lastException), trace, attempts - 1),
                                 trace[attempts - 1])
    {
      hide GoesOn, Surfaces, Retryable, Interrupted;
      NothingCounted<T>();
      assert trace[..0] == [];
      attempts := 0;
      while attempts < |trace|
        invariant attempts <= |trace| && totalTries == old(totalTries) + attempts
        invariant statistic.attempts == old(statistic.attempts) + attempts
        invariant statistic.done == old(statistic.done) + attempts
        invariant statistic.errors == old(statistic.errors) + Retryable(trace[..attempts])
        invariant statistic.cancels == old(statistic.cancels) + Interrupted(trace[..attempts])
        invariant AllRetried(maxTries, old(totalTries), trace, attempts)
        invariant forall i :: 0 <= i < attempts ==> trace[i].Raises?
        invariant lastException == LastBefore(old(lastException), trace, attempts)
      {
        var stop: bool;
        OneMore(trace, attempts);
        stop, r := Turn(trace[attempts]);
        attempts := attempts + 1;
        if stop {
          StopMeans(maxTries, old(totalTries), trace, old(lastException), attempts - 1);
          AllRetriedMeans(maxTries, old(totalTries), trace, attempts - 1);
          return;
        }
        AllRetriedMeans(maxTries, old(totalTries), trace, attempts);
      }
      AllRetriedMeans(maxTries, old(totalTries), trace, attempts);
      r := Unfinished;
    }
  }

  lemma NothingCounted<T>()
    ensures Retryable<T>([]) == 0 && Interrupted<T>([]) == 0
  {
  }

  lemma OneMore<T>(trace: seq<Attempt<T>>, k: nat)
    requires k < |trace|
    ensures Retryable(trace[..k + 1]) == Retryable(trace[..k]) + IsRetryable(trace[k])
    ensures Interrupted(trace[..k + 1]) == Interrupted(trace[..k]) + IsInterrupted(trace[k])
  {
    assert trace[..k + 1] == trace[..k] + [trace[k]];
    SumAppend(IsRetryable<T>, trace[..k], trace[k]);
    SumAppend(IsInterrupted<T>, trace[..k], trace[k]);
  }

  // ---------------------------------------------------------------- consequences

  /** A fresh execution with a limit makes at most `max_tries` attempts on every trace, and on a trace
      that long it has come to an end. */
  lemma AtMostMaxTries<T>(maxTries: nat, trace: seq<Attempt<T>>, n: nat)
    requires 1 <= maxTries && n <= |trace|
    requires forall i :: 0 <= i < n - 1 ==> GoesOn(Some(maxTries), i + 1, trace[i])
    ensures n <= maxTries
    ensures maxTries <= |trace| ==> exists k: nat :: k < maxTries && StopsAt(Some(maxTries), 0, trace, k)
  {
    if 2 <= n {
      assert GoesOn(Some(maxTries), n - 2 + 1, trace[n - 2]);
    }
    if maxTries <= |trace| {
      var k := 0;
      while GoesOn(Some(maxTries), k + 1, trace[k])
        invariant k < maxTries && forall i :: 0 <= i < k ==> GoesOn(Some(maxTries), i + 1, trace[i])
        decreases maxTries - k
      {
        k := k + 1;
      }
      assert StopsAt(Some(maxTries), 0, trace, k);
    }
  }

  /** The deadline's own timeout surfaces exactly if the first attempt of a fresh execution runs into
      the deadline: any later attempt has an earlier failure on record, which surfaces instead. */
  lemma DeadlineSurfacesOnlyFirst<T>(maxTries: Option<nat>, trace: seq<Attempt<T>>, k: nat)
    requires StopsAt(maxTries, 0, trace, k)
    ensures Surfaces(maxTries, k + 1, LastBefore(None, trace, k), trace[k]).DeadlineTimeout? <==>
            k == 0 && trace[0].HitsDeadline?
    ensures trace[k].HitsDeadline? && 0 < k ==>
              Surfaces(maxTries, k + 1, LastBefore(None, trace, k), trace[k]) == Raised(trace[k - 1].exc)
  {
    assert 0 < k ==> GoesOn(maxTries, k - 1 + 1, trace[k - 1]);
  }

  /** Whatever exception surfaces from a fresh execution, some attempt raised it. */
  lemma SurfacedWasRaised<T>(maxTries: Option<nat>, trace: seq<Attempt<T>>, k: nat, e: int)
    requires StopsAt(maxTries, 0, trace, k)
    requires Surfaces(maxTries, k + 1, LastBefore(None, trace, k), trace[k]) == Raised(e)
    ensures exists i :: 0 <= i <= k && trace[i].Raises? && trace[i].exc == e
  {
    if trace[k].Raises? {
      assert trace[k].exc == e;
    } else {
      assert GoesOn(maxTries, k - 1 + 1, trace[k - 1]) && trace[k - 1].exc == e;
    }
  }
}
