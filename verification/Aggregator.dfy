/**
 `AggregatorAsync` of `aiomisc/aggregate.py`: one object whose fields the atomic sections of
 `aggregate`, `_execute` and the wrapper of `_to_async_aggregate` update in place.
 Each method is one such section, proved to be the step of `AggregateProtocol` it stands for.
 */
module Aggregator {
  import opened Basics
  import opened AggregateProtocol
  import Proofs = AggregateProofs

  datatype ValueError = NotVariadic | BadMaxCount | BadLeeway

  /** The constructor: the function's signature is checked first, then the count, then the leeway. */
  method Make<V, R>(variadic: bool, leewayMs: real, maxCount: Option<int>)
    returns (r: Result<AggregatorAsync<V, R>, ValueError>)
    ensures r.Ok? <==> variadic && 0.0 < leewayMs && (maxCount.Some? ==> 0 < maxCount.value)
    ensures r.Ok? ==> fresh(r.value) && r.value.Valid() && r.value.View() == Init()
    ensures r.Ok? ==> r.value.cfg.leeway * 1000.0 == leewayMs && r.value.cfg.maxCount == maxCount
    ensures r == Err(NotVariadic) <==> !variadic
    ensures r == Err(BadMaxCount) <==> variadic && maxCount.Some? && maxCount.value <= 0
  {
    if !variadic {
      return Err(NotVariadic);
    }
    if maxCount.Some? && maxCount.value <= 0 {
      return Err(BadMaxCount);
    }
    if leewayMs <= 0.0 {
      return Err(BadLeeway);
    }
    var limit := if maxCount.Some? then Some(maxCount.value) else None;
    var a := new AggregatorAsync<V, R>(Config(leewayMs / 1000.0, limit));
    return Ok(a);
  }

  /** Setting the futures first and leaving the lock afterwards is one `Ended` step. */
  lemma EndedAfterSetting<V, R>(s: State<V, R>, me: nat, futures: seq<Future<R>>, ending: Ending<R>)
    requires Shaped(s) && me < |s.callers| && s.callers[me].stage.Executing?
    requires |futures| == |BatchOf(s, me).futures|
    ensures var mid := SetBatch(s, s.callers[me].batch, BatchOf(s, me).(futures := futures));
            Shaped(mid) && Ended(mid, me, futures, ending) == Ended(s, me, futures, ending)
  {
    var b := s.callers[me].batch;
    var mid := SetBatch(s, b, BatchOf(s, me).(futures := futures));
    assert Ended(mid, me, futures, ending).batches == Ended(s, me, futures, ending).batches;
  }

  class AggregatorAsync<V, R> {
    const cfg: Config
    var now: real
    var open: nat
    var batches: seq<Batch<V, R>>
    var callers: seq<Caller<V, R>>

    ghost function View(): State<V, R>
      reads this
    {
      State(now, open, batches, callers)
    }

    ghost predicate Valid()
      reads this
    {
      cfg.Valid() && Inv(cfg, View())
    }

    constructor (cfg: Config)
      requires cfg.Valid()
      ensures Valid() && View() == Init() && this.cfg == cfg
    {
      this.cfg := cfg;
      now, open, batches, callers := 0.0, 0, [EmptyBatch()], [];
      new;
      Proofs.InitOk<V, R>(cfg);
    }

    /** `_clear`: the fields of the open batch are replaced; the members keep the old ones. */
    method ClearFields()
      modifies this`open, this`batches
      ensures View() == Clear(old(View()))
    {
      open := |batches|;
      batches := batches + [EmptyBatch()];
    }

    /** `aggregate` from its first line to its first suspension. */
    method Join(arg: V) returns (me: nat)
      requires Valid()
      modifies this`open, this`batches, this`callers
      ensures Valid() && View() == Apply(cfg, old(View()), Arrive(arg))
      ensures me == old(|callers|) < |callers| && callers[me].arg == arg
    {
      hide BatchOk, LocksHeld, SlotsOwned;
      ghost var s := View();
      Proofs.StepOk(cfg, s, Arrive(arg));
      var mine := open;
      if batches[mine].firstCallAt.None? {
        batches := batches[mine := batches[mine].(firstCallAt := Some(now))];
      }
      me := |callers|;
      callers := callers + [Caller(arg, mine, |batches[mine].args|, Waiting)];
      batches := batches[mine := batches[mine].(args := batches[mine].args + [arg])];
      batches := batches[mine := batches[mine].(futures := batches[mine].futures + [Pending])];
      if cfg.maxCount == Some(|batches[mine].args|) {
        batches := batches[mine := batches[mine].(event := true)];
        ClearFields();
        callers := callers[me := callers[me].(stage := Locking)];
      }
      assert batches == Joined(cfg, s, arg).batches;
      assert callers == Joined(cfg, s, arg).callers;
    }

    /** The wait is over, by the event or by the timeout, up to asking for the lock. */
    method AfterWait(me: nat, timedOut: bool)
      requires Valid()
      requires Enabled(cfg, View(), if timedOut then Timeout(me) else Wake(me))
      modifies this`open, this`batches, this`callers
      ensures Valid()
      ensures View() == Apply(cfg, old(View()), if timedOut then Timeout(me) else Wake(me))
    {
      Proofs.StepOk(cfg, View(), if timedOut then Timeout(me) else Wake(me));
      if callers[me].batch == open {
        ClearFields();
      }
      callers := callers[me := callers[me].(stage := Locking)];
    }

    /** The lock is granted, up to the call of the function or to the end. */
    method EnterLock(me: nat)
      requires Valid() && Enabled(cfg, View(), Grant(me))
      modifies this`batches, this`callers
      ensures Valid() && View() == Apply(cfg, old(View()), Grant(me))
    {
      Proofs.StepOk(cfg, View(), Grant(me));
      var b := callers[me].batch;
      var own := batches[b].futures[callers[me].index];
      if own.Pending? {
        batches := batches[b := batches[b].(lockedBy := Some(me))];
        callers := callers[me := callers[me].(stage := Executing(batches[b].args))];
      } else {
        callers := callers[me := callers[me].(stage := Finished(own.outcome))];
      }
    }

    /** The zip loop of the wrapper: results go to the futures that are still pending. */
    method SetResults(b: nat, results: seq<R>)
      requires b < |batches|
      modifies this`batches
      ensures batches == old(batches)[b := old(batches)[b].(futures := Zipped(old(batches)[b].futures, results))]
    {
      ghost var was := batches;
      var n := if |results| < |batches[b].futures| then |results| else |batches[b].futures|;
      assert Zipped(was[b].futures, results[..0]) == was[b].futures;
      for i := 0 to n
        invariant |batches| == |was| && forall k :: 0 <= k < |was| && k != b ==> batches[k] == was[k]
        invariant batches[b] == was[b].(futures := Zipped(was[b].futures, results[..i]))
      {
        if batches[b].futures[i].Pending? {
          batches := batches[b := batches[b].(futures := batches[b].futures[i := Done(Value(results[i]))])];
        }
        assert Zipped(was[b].futures, results[..i + 1]) == batches[b].futures;
      }
      assert Zipped(was[b].futures, results[..n]) == Zipped(was[b].futures, results);
    }

    /** `_set_exception`, and the check after the call that every future was set. */
    method FailPending(b: nat, failure: Failure)
      requires b < |batches|
      modifies this`batches
      ensures batches == old(batches)[b := old(batches)[b].(futures := Failed(old(batches)[b].futures, failure))]
    {
      ghost var was := batches;
      for i := 0 to |batches[b].futures|
        invariant |batches| == |was| && forall k :: 0 <= k < |was| && k != b ==> batches[k] == was[k]
        invariant batches[b] == was[b].(futures := batches[b].futures)
        invariant |batches[b].futures| == |was[b].futures|
        invariant forall k :: 0 <= k < i ==> batches[b].futures[k] == Failed(was[b].futures, failure)[k]
        invariant forall k :: i <= k < |was[b].futures| ==> batches[b].futures[k] == was[b].futures[k]
      {
        if batches[b].futures[i].Pending? {
          batches := batches[b := batches[b].(futures := batches[b].futures[i := Done(Error(failure))])];
        }
      }
      assert Failed(was[b].futures, failure) == batches[b].futures;
    }

    /** The function came back: record the call, release the lock, look at the own future. */
    method LeaveLock(me: nat, ending: Ending<R>)
      requires Shaped(View()) && me < |callers| && callers[me].stage.Executing?
      modifies this`batches, this`callers
      ensures View() == Ended(old(View()), me, old(batches)[old(callers)[me].batch].futures, ending)
    {
      var b := callers[me].batch;
      batches := batches[b := batches[b].(lockedBy := None,
                                          calls := batches[b].calls + [Call(callers[me].stage.given, ending)])];
      callers := callers[me := callers[me].(stage := AfterLock(batches[b].futures[callers[me].index]))];
    }

    method FunctionReturned(me: nat, results: seq<R>)
      requires Valid() && Enabled(cfg, View(), FuncReturn(me, results))
      modifies this`batches, this`callers
      ensures Valid() && View() == Apply(cfg, old(View()), FuncReturn(me, results))
    {
      ghost var s := View();
      Proofs.StepOk(cfg, s, FuncReturn(me, results));
      var b := callers[me].batch;
      ghost var filled := Failed(Zipped(batches[b].futures, results), ResultNotSet);
      EndedAfterSetting(s, me, filled, Returned(results));
      SetResults(b, results);
      FailPending(b, ResultNotSet);
      assert batches == s.batches[b := s.batches[b].(futures := filled)];
      LeaveLock(me, Returned(results));
    }

    /** The function raised, or iterating over what it returned did after these results: they are set, and
        every other pending future gets the exception. */
    method FunctionRaised(me: nat, results: seq<R>, failure: Failure)
      requires Valid() && Enabled(cfg, View(), FuncRaise(me, results, failure))
      modifies this`batches, this`callers
      ensures Valid() && View() == Apply(cfg, old(View()), FuncRaise(me, results, failure))
    {
      ghost var s := View();
      Proofs.StepOk(cfg, s, FuncRaise(me, results, failure));
      var b := callers[me].batch;
      ghost var filled := Failed(Zipped(batches[b].futures, results), failure);
      EndedAfterSetting(s, me, filled, Raised(results, failure));
      SetResults(b, results);
      FailPending(b, failure);
      assert batches == s.batches[b := s.batches[b].(futures := filled)];
      LeaveLock(me, Raised(results, failure));
    }

    /** Cancellation reaches the caller where it is suspended. */
    method CancelCaller(me: nat)
      requires Valid() && Enabled(cfg, View(), Cancel(me))
      modifies this`batches, this`callers
      ensures Valid() && View() == Apply(cfg, old(View()), Cancel(me))
    {
      Proofs.StepOk(cfg, View(), Cancel(me));
      if callers[me].stage.Executing? {
        LeaveLock(me, Interrupted);
      }
      callers := callers[me := callers[me].(stage := Cancelled)];
    }
  }
}
