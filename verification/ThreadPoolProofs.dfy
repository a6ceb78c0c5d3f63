/** What every run of the thread pool keeps, and how shutdown ends. */
module ThreadPoolProofs {
  import opened Basics
  import opened ThreadPoolProtocol

  lemma {:induction false} UncountedMore(stages: seq<Stage>, n: nat)
    ensures Uncounted(stages + Times(AtLoop, n)) == Uncounted(stages)
  {
    if n == 0 {
      assert stages + Times(AtLoop, 0) == stages;
    } else {
      assert stages + Times(AtLoop, n) == stages + Times(AtLoop, n - 1) + [AtLoop];
      UncountedMore(stages, n - 1);
      SumAppend(Halfway, stages + Times(AtLoop, n - 1), AtLoop);
    }
  }

  lemma {:induction false} NoSentinelInHand(stages: seq<Stage>, n: nat)
    ensures InHand(stages + Times(AtLoop, n)) == InHand(stages)
  {
    assert Handing !in Times(AtLoop, n);
    assert multiset(Times(AtLoop, n))[Handing] == 0;
  }

  lemma InHandUpdate(stages: seq<Stage>, t: nat, stage: Stage)
    requires t < |stages|
    ensures InHand(stages[t := stage])
            == InHand(stages) - (if stages[t].Handing? then 1 else 0) + (if stage.Handing? then 1 else 0)
  {
  }

  lemma SentinelsTail(queue: seq<Item>)
    requires queue != []
    ensures Sentinels(queue[1..]) == Sentinels(queue) - if queue[0].Sentinel? then 1 else 0
  {
    assert queue == [queue[0]] + queue[1..];
  }

  lemma SentinelsAppend(queue: seq<Item>, item: Item)
    ensures Sentinels(queue + [item]) == Sentinels(queue) + if item.Sentinel? then 1 else 0
  {
  }

  lemma NothingStarted(n: nat)
    ensures InHand(Times(AtLoop, n)) == 0 && Uncounted(Times(AtLoop, n)) == 0
  {
    UncountedMore([], n);
    NoSentinelInHand([], n);
    assert [] + Times(AtLoop, n) == Times(AtLoop, n);
  }

  lemma FreshOk(maxWorkers: int, n: nat, s: State)
    requires 1 <= n && (n <= maxWorkers || n == 1)
    requires s == State(Times(AtLoop, n), Times(0, n), [], [], {}, [], None, false, Open, Stats(0, 0, 0, 0))
    ensures Inv(maxWorkers, s)
  {
    NothingStarted(n);
    assert Sentinels(s.queue) == 0;
    hide Uncounted, Sentinels, InHand, Times;
  }

  lemma InitOk(maxWorkers: int)
    ensures Inv(maxWorkers, Init(maxWorkers))
  {
    FreshOk(maxWorkers, InitialThreads(maxWorkers), Init(maxWorkers));
  }

  lemma SubmittedShape(maxWorkers: int, s: State)
    requires Shaped(s) && TakenOk(s) && FuturesOk(s) && s.closer.Open?
    ensures var s' := Submitted(maxWorkers, s); Shaped(s') && TakenOk(s') && FuturesOk(s')
  {
    hide Extra;
  }

  lemma SubmittedPool(maxWorkers: int, s: State)
    requires Shaped(s) && PoolOk(maxWorkers, s)
    ensures PoolOk(maxWorkers, Submitted(maxWorkers, s))
  {
    assert |s.tracked + {|s.fates|}| == |s.tracked| + 1;
    hide Shaped, Times;
  }

  /** Growing before the future is added leaves as many threads as tracked futures, up to the limit. */
  lemma SubmittedOk(maxWorkers: int, s: State)
    requires Inv(maxWorkers, s) && s.closer.Open?
    ensures Inv(maxWorkers, Submitted(maxWorkers, s))
  {
    var extra := Extra(maxWorkers, |s.stages|, |s.tracked|);
    UncountedMore(s.stages, extra);
    NoSentinelInHand(s.stages, extra);
    SentinelsAppend(s.queue, Work(|s.fates|));
    SubmittedShape(maxWorkers, s);
    SubmittedPool(maxWorkers, s);
    hide Uncounted, Sentinels, InHand, Shaped, TakenOk, FuturesOk, PoolOk, Extra, Times;
  }

  lemma ThreadStepSentinel(s: State, e: Event)
    requires Shaped(s) && SentinelOk(s) && Enabled(s, e) && OfThread(e)
    ensures SentinelOk(ThreadMoved(s, e))
  {
    hide Sentinels, InHand, Shaped;
    InHandUpdate(s.stages, e.thread, NextStage(s, e));
    if e.Take? {
      SentinelsTail(s.queue);
    } else if e.PutBack? {
      SentinelsAppend(s.queue, Sentinel);
    }
  }

  /** Success or error is counted on the way to `Ran`, done on the way from it. */
  lemma ThreadStepCounts(s: State, e: Event)
    requires Shaped(s) && Enabled(s, e) && OfThread(e)
    requires s.stats.success + s.stats.error == s.stats.done + Uncounted(s.stages)
    ensures var s' := ThreadMoved(s, e); s'.stats.success + s'.stats.error == s'.stats.done + Uncounted(s'.stages)
  {
    var next := NextStage(s, e);
    SumUpdate(Halfway, s.stages, e.thread, next);
    assert Uncounted(s.stages[e.thread := next])
        == Uncounted(s.stages) - Halfway(s.stages[e.thread]) + Halfway(next);
    hide Uncounted, Shaped;
  }

  lemma ThreadStepShaped(s: State, e: Event)
    requires Shaped(s) && Enabled(s, e) && OfThread(e)
    ensures Shaped(ThreadMoved(s, e))
  {
    assert StageShaped(s.stages[e.thread], |s.fates|);
    assert StageShaped(NextStage(s, e), |s.fates|);
    hide StageShaped, NextStage;
  }

  lemma ThreadStepTaken(s: State, e: Event)
    requires Shaped(s) && TakenOk(s) && Enabled(s, e) && OfThread(e)
    ensures var s' := ThreadMoved(s, e); |s'.taken| == |s'.stages| && TakenOk(s')
  {
    hide StageShaped;
  }

  lemma ThreadStepFutures(s: State, e: Event)
    requires Shaped(s) && FuturesOk(s) && Enabled(s, e) && OfThread(e)
    ensures FuturesOk(ThreadMoved(s, e))
  {
    hide NextStage;
  }

  lemma ThreadStepOk(maxWorkers: int, s: State, e: Event)
    requires Inv(maxWorkers, s) && Enabled(s, e) && OfThread(e)
    ensures Inv(maxWorkers, ThreadMoved(s, e))
  {
    hide Uncounted, SentinelOk, TakenOk, FuturesOk, StageShaped;
    ThreadStepSentinel(s, e);
    ThreadStepCounts(s, e);
    ThreadStepShaped(s, e);
    ThreadStepTaken(s, e);
    ThreadStepFutures(s, e);
    hide ThreadMoved, Shaped;
  }

  lemma CloserStepShaped(s: State, e: Event)
    requires Shaped(s) && FuturesOk(s) && Enabled(s, e) && OfCloser(e)
    ensures Shaped(CloserMoved(s, e)) && FuturesOk(CloserMoved(s, e))
  {
    hide StageShaped;
  }

  lemma CloserStepSentinel(s: State, e: Event)
    requires Shaped(s) && SentinelOk(s) && Enabled(s, e) && OfCloser(e)
    ensures SentinelOk(CloserMoved(s, e))
  {
    hide Sentinels, InHand, Shaped;
    if e.PutSentinel? {
      SentinelsAppend(s.queue, Sentinel);
    }
  }

  lemma CloserStepOk(maxWorkers: int, s: State, e: Event)
    requires Inv(maxWorkers, s) && Enabled(s, e) && OfCloser(e)
    ensures Inv(maxWorkers, CloserMoved(s, e))
  {
    hide Uncounted, Sentinels, InHand, FuturesOk, SentinelOk, StageShaped;
    CloserStepShaped(s, e);
    CloserStepSentinel(s, e);
    CloserPops(s, e);
    assert s.closer.Open? || !CloserMoved(s, e).closer.Open?;
    hide CloserMoved, Shaped;
  }

  /** `shutdown` never adds a future, and never goes back to where it has not begun. */
  lemma CloserPops(s: State, e: Event)
    requires Shaped(s) && Enabled(s, e) && OfCloser(e)
    ensures |CloserMoved(s, e).tracked| == |s.tracked| - (if e.Pop? then 1 else 0)
    ensures !CloserMoved(s, e).closer.Open?
  {
    hide Shaped, Write;
  }

  lemma LoopStepShaped(s: State, e: Event)
    requires Shaped(s) && FuturesOk(s) && Enabled(s, e) && OfLoop(e)
    ensures Shaped(LoopMoved(s, e)) && FuturesOk(LoopMoved(s, e)) && |LoopMoved(s, e).tracked| <= |s.tracked|
  {
    hide StageShaped;
  }

  lemma LoopStepOk(maxWorkers: int, s: State, e: Event)
    requires Inv(maxWorkers, s) && Enabled(s, e) && OfLoop(e)
    ensures Inv(maxWorkers, LoopMoved(s, e))
  {
    hide Uncounted, Sentinels, InHand, FuturesOk, StageShaped;
    LoopStepShaped(s, e);
    hide LoopMoved, Shaped;
  }

  lemma StepOk(maxWorkers: int, s: State, e: Event)
    requires Inv(maxWorkers, s) && Enabled(s, e)
    ensures Inv(maxWorkers, Apply(maxWorkers, s, e))
  {
    assert Shaped(s);
    hide Inv, Shaped, ThreadMoved, CloserMoved, LoopMoved, Submitted;
    if OfThread(e) {
      ThreadStepOk(maxWorkers, s, e);
    } else if OfCloser(e) {
      CloserStepOk(maxWorkers, s, e);
    } else if OfLoop(e) {
      LoopStepOk(maxWorkers, s, e);
    } else {
      SubmittedOk(maxWorkers, s);
    }
  }

  lemma SubmitStep(maxWorkers: int, s: State)
    requires Inv(maxWorkers, s) && s.closer.Open?
    ensures Shaped(s) && Apply(maxWorkers, s, Submit) == Submitted(maxWorkers, s)
    ensures Inv(maxWorkers, Submitted(maxWorkers, s))
  {
    SubmittedOk(maxWorkers, s);
  }

  lemma CloserMoves(maxWorkers: int, s: State, e: Event)
    requires Inv(maxWorkers, s) && Enabled(s, e) && OfCloser(e)
    ensures Shaped(s) && Apply(maxWorkers, s, e) == CloserMoved(s, e) && Inv(maxWorkers, CloserMoved(s, e))
  {
    CloserStepOk(maxWorkers, s, e);
  }

  lemma TrackedInRange(maxWorkers: int, s: State)
    requires Inv(maxWorkers, s)
    ensures forall f :: f in s.tracked ==> f < |s.fates|
    ensures s.closer.Popped? || s.closer.Writing? ==> s.closer.future < |s.fates|
  {
  }

  // ------------------------------------------------------------------ whole runs

  ghost predicate IsRun(maxWorkers: int, s: State, es: seq<Event>)
    decreases |es|
  {
    && Shaped(s)
    && (es != [] ==> Enabled(s, es[0]) && IsRun(maxWorkers, Apply(maxWorkers, s, es[0]), es[1..]))
  }

  ghost function After(maxWorkers: int, s: State, es: seq<Event>): State
    requires IsRun(maxWorkers, s, es)
    decreases |es|
  {
    if es == [] then s else After(maxWorkers, Apply(maxWorkers, s, es[0]), es[1..])
  }

  /** Over every interleaving of submissions, threads, deliveries, cancellations and shutdown: the
      pool has at most `max_workers` threads and has grown while tasks outnumbered them, one sentinel
      exists once it was put, no thread takes two items after the flag, and success plus error is
      done plus the items between the two counters. */
  lemma {:induction false} EveryRunKeepsInv(maxWorkers: int, s: State, es: seq<Event>)
    requires Inv(maxWorkers, s) && IsRun(maxWorkers, s, es)
    ensures Inv(maxWorkers, After(maxWorkers, s, es))
    decreases |es|
  {
    if es != [] {
      StepOk(maxWorkers, s, es[0]);
      EveryRunKeepsInv(maxWorkers, Apply(maxWorkers, s, es[0]), es[1..]);
    }
  }

  // ------------------------------------------------- every future is written at most once

  ghost predicate StaysResolved(s: State, s': State) {
    && |s.fates| <= |s'.fates|
    && forall f :: 0 <= f < |s.fates| && s.fates[f].Resolved? ==> s'.fates[f] == s.fates[f]
  }

  /** The step calls `set_result`, `set_exception` or `cancel` of this future. */
  predicate WritesTo(s: State, e: Event, f: nat) {
    match e
    case Fail(t) => t < |s.stages| && s.stages[t] == Failing(f)
    case SetResult => s.delivering.Some? && s.delivering.value.0 == f
    case Cancel(g) => g == f
    case Reject => s.closer == Writing(f)
    case _ => false
  }

  predicate IsResolved(s: State, f: nat) {
    f < |s.fates| && s.fates[f].Resolved?
  }

  /** A future becomes resolved exactly by a write that finds it pending. */
  lemma StepWrites(maxWorkers: int, s: State, e: Event, f: nat)
    requires Shaped(s) && Enabled(s, e)
    ensures StaysResolved(s, Apply(maxWorkers, s, e))
    ensures IsResolved(Apply(maxWorkers, s, e), f) <==> IsResolved(s, f) || WritesTo(s, e, f)
  {
    hide NextStage;
    if OfThread(e) {
      hide CloserMoved, LoopMoved, Submitted;
      assert StageShaped(s.stages[e.thread], |s.fates|);
    } else if e.Submit? {
      hide ThreadMoved, CloserMoved, LoopMoved, StageShaped;
    } else {
      hide ThreadMoved, Submitted, StageShaped;
    }
  }

  /** The writes to this future that did not raise because it was done. */
  ghost function Effective(maxWorkers: int, s: State, es: seq<Event>, f: nat): nat
    requires IsRun(maxWorkers, s, es)
    decreases |es|
  {
    if es == [] then 0
    else
      (if WritesTo(s, es[0], f) && !IsResolved(s, f) then 1 else 0)
      + Effective(maxWorkers, Apply(maxWorkers, s, es[0]), es[1..], f)
  }

  /** An outcome, once there, never changes; and over every run exactly one write to a future takes
      effect if it is resolved at the end, and none if it is not: every other write raises. */
  lemma {:induction false} EveryRunResolvesOnce(maxWorkers: int, s: State, es: seq<Event>, f: nat)
    requires IsRun(maxWorkers, s, es)
    ensures StaysResolved(s, After(maxWorkers, s, es))
    ensures Effective(maxWorkers, s, es, f)
            == if IsResolved(After(maxWorkers, s, es), f) && !IsResolved(s, f) then 1 else 0
    decreases |es|
  {
    if es != [] {
      StepWrites(maxWorkers, s, es[0], f);
      EveryRunResolvesOnce(maxWorkers, Apply(maxWorkers, s, es[0]), es[1..], f);
    }
  }

  // -------------------------------------------------------------- how shutdown ends

  /** The step makes the rejection loop raise: another writer comes between the test of a future and
      its rejection, or the loop is closed when a pending future is to be rejected, or the last future
      is discarded between the loop's test and its pop. */
  predicate Disturbs(s: State, e: Event) {
    || (s.closer.Writing? && (e.CloseLoop? || (!e.Reject? && WritesTo(s, e, s.closer.future))))
    || (s.closer.Popped? && e.TestPopped? && s.loopClosed && !IsResolved(s, s.closer.future))
    || (s.closer.Popping? && e.Discard? && s.tracked == {e.future})
  }

  ghost predicate Disturbed(maxWorkers: int, s: State, es: seq<Event>)
    requires IsRun(maxWorkers, s, es)
    decreases |es|
  {
    es != [] && (Disturbs(s, es[0]) || Disturbed(maxWorkers, Apply(maxWorkers, s, es[0]), es[1..]))
  }

  /** `shutdown` has raised, or its next step will. */
  predicate Lost(s: State) {
    match s.closer
    case Popping => s.tracked == {}
    case Writing(f) => s.loopClosed || IsResolved(s, f)
    case Aborted(_) => true
    case _ => false
  }

  lemma StepLost(maxWorkers: int, s: State, e: Event)
    requires Shaped(s) && Enabled(s, e)
    ensures Lost(Apply(maxWorkers, s, e)) <==> Lost(s) || Disturbs(s, e)
  {
    hide ThreadMoved;
    if s.closer.Writing? {
      StepWrites(maxWorkers, s, e, s.closer.future);
    }
  }

  lemma {:induction false} RunLost(maxWorkers: int, s: State, es: seq<Event>)
    requires IsRun(maxWorkers, s, es)
    ensures Lost(After(maxWorkers, s, es)) <==> Lost(s) || Disturbed(maxWorkers, s, es)
    decreases |es|
  {
    if es != [] {
      StepLost(maxWorkers, s, es[0]);
      RunLost(maxWorkers, Apply(maxWorkers, s, es[0]), es[1..]);
    }
  }

  ghost predicate AllResolved(s: State) {
    forall f :: 0 <= f < |s.fates| ==> s.fates[f].Resolved?
  }

  /** Over every run in which `shutdown` has come to an end: it came to its regular end exactly if
      nothing disturbed its rejection loop, and then every future ever submitted is resolved.  What it
      leaves pending after raising are futures it had not popped yet. */
  lemma ShutdownCompletesIff(maxWorkers: int, s: State, es: seq<Event>)
    requires s == Init(maxWorkers) && IsRun(maxWorkers, s, es) && Ended(After(maxWorkers, s, es).closer)
    ensures var u := After(maxWorkers, s, es);
            && (u.closer.Finished? <==> !Disturbed(maxWorkers, s, es))
            && (u.closer.Finished? || u.closer == Aborted(KeyError) ==> AllResolved(u))
            && (forall f :: 0 <= f < |u.fates| && u.fates[f].Pending? ==> u.closer.Aborted? && f in u.tracked)
            && |u.fates| == u.stats.submitted
  {
    InitOk(maxWorkers);
    EveryRunKeepsInv(maxWorkers, s, es);
    RunLost(maxWorkers, s, es);
  }

  lemma FinishedResolves(maxWorkers: int, s: State)
    requires Inv(maxWorkers, s) && s.closer.Finished?
    ensures AllResolved(s)
  {
  }

  function CloserRank(closer: Closer): nat {
    match closer
    case Open => 6
    case Flagged => 5
    case Shut => 4
    case AtWhile => 2
    case Popping => 1
    case Popped(_) => 4
    case Writing(_) => 3
    case Finished => 0
    case Aborted(_) => 0
  }

  /** How many steps `shutdown` can still take. */
  function CloserLeft(s: State): nat {
    4 * |s.tracked| + CloserRank(s.closer)
  }

  function CloserSteps(es: seq<Event>): nat {
    if es == [] then 0 else (if OfCloser(es[0]) then 1 else 0) + CloserSteps(es[1..])
  }

  lemma OthersLeaveCloser(maxWorkers: int, s: State, e: Event)
    requires Shaped(s) && FuturesOk(s) && Enabled(s, e) && !s.closer.Open? && !OfCloser(e)
    ensures Apply(maxWorkers, s, e).closer == s.closer
    ensures |Apply(maxWorkers, s, e).tracked| <= |s.tracked|
  {
    hide ThreadMoved, LoopMoved, Submitted, Shaped, FuturesOk;
    if OfLoop(e) {
      LoopStepShaped(s, e);
    }
  }

  lemma CloserRankFalls(s: State, e: Event)
    requires Shaped(s) && Enabled(s, e) && !s.closer.Open? && OfCloser(e)
    ensures CloserRank(CloserMoved(s, e).closer) < CloserRank(s.closer) + if e.Pop? then 4 else 0
  {
    hide Shaped, Write;
  }

  lemma CloserStep(maxWorkers: int, s: State, e: Event)
    requires Shaped(s) && Enabled(s, e) && !s.closer.Open? && OfCloser(e)
    ensures var s' := Apply(maxWorkers, s, e); !s'.closer.Open? && CloserLeft(s') < CloserLeft(s)
  {
    hide CloserMoved, Shaped, CloserRank;
    CloserRankFalls(s, e);
    CloserPops(s, e);
  }

  /** The rejection loop always comes to one of its two ends, whatever the others do meanwhile. */
  lemma {:induction false} ShutdownEnds(maxWorkers: int, s: State, es: seq<Event>)
    requires Inv(maxWorkers, s) && IsRun(maxWorkers, s, es) && !s.closer.Open?
    ensures CloserSteps(es) + CloserLeft(After(maxWorkers, s, es)) <= CloserLeft(s)
    ensures !Ended(After(maxWorkers, s, es).closer) ==>
              exists e :: OfCloser(e) && Enabled(After(maxWorkers, s, es), e)
    decreases |es|
  {
    if es != [] {
      StepOk(maxWorkers, s, es[0]);
      if OfCloser(es[0]) {
        CloserStep(maxWorkers, s, es[0]);
      } else {
        OthersLeaveCloser(maxWorkers, s, es[0]);
      }
      hide Inv, Apply, CloserRank;
      ShutdownEnds(maxWorkers, Apply(maxWorkers, s, es[0]), es[1..]);
    } else if !Ended(s.closer) {
      CloserCanMove(s);
    }
  }

  lemma CloserCanMove(s: State)
    requires Shaped(s) && !Ended(s.closer)
    ensures exists e :: OfCloser(e) && Enabled(s, e)
  {
    var e := match s.closer
      case Open => Flag
      case Flagged => Close
      case Shut => PutSentinel
      case AtWhile => While
      case Popping => if s.tracked == {} then PopEmpty else (var f :| f in s.tracked; Pop(f))
      case Popped(_) => TestPopped
      case _ => Reject;
    assert OfCloser(e) && Enabled(s, e);
  }

  // --------------------------------------------------------- every thread exits

  function Rank(stage: Stage): nat {
    match stage
    case AtGet => 10
    case Blocked => 9
    case Holding(_) => 8
    case Undone(_) => 7
    case Running(_) => 6
    case Ran(_, _) => 5
    case Posting(_, _) => 4
    case Sending(_, _) => 3
    case Forgetting(_) => 3
    case Failing(_) => 2
    case AtLoop => 1
    case Handing => 1
    case Exited => 0
  }

  function Left(stages: seq<Stage>): nat {
    Sum(Rank, stages)
  }

  function ThreadSteps(es: seq<Event>): nat {
    if es == [] then 0 else (if OfThread(es[0]) then 1 else 0) + ThreadSteps(es[1..])
  }

  lemma StepLeaves(maxWorkers: int, s: State, e: Event)
    requires Shaped(s) && Enabled(s, e) && !s.closer.Open?
    ensures var s' := Apply(maxWorkers, s, e);
            && !s'.closer.Open?
            && (if OfThread(e) then Left(s'.stages) < Left(s.stages) else s'.stages == s.stages)
  {
    if OfThread(e) {
      assert Rank(NextStage(s, e)) < Rank(s.stages[e.thread]);
      SumUpdate(Rank, s.stages, e.thread, NextStage(s, e));
      hide NextStage, Rank;
    }
  }

  /** Once the flag is set, the threads take a bounded number of steps in all. */
  lemma {:induction false} ThreadsRunOut(maxWorkers: int, s: State, es: seq<Event>)
    requires IsRun(maxWorkers, s, es) && !s.closer.Open?
    ensures ThreadSteps(es) + Left(After(maxWorkers, s, es).stages) <= Left(s.stages)
    decreases |es|
  {
    if es != [] {
      StepLeaves(maxWorkers, s, es[0]);
      hide Apply, Left;
      ThreadsRunOut(maxWorkers, Apply(maxWorkers, s, es[0]), es[1..]);
    }
  }

  /** Once the sentinel has been put, a thread that has not exited can move, or another thread is
      about to hand it the sentinel: none blocks for ever. */
  lemma NoThreadBlocksForEver(maxWorkers: int, s: State, t: nat) returns (e: Event)
    requires Inv(maxWorkers, s) && Put(s.closer)
    requires t < |s.stages| && !s.stages[t].Exited?
    ensures OfThread(e) && Enabled(s, e) && (e.thread == t || (s.stages[t].Blocked? && s.queue == [] && e.PutBack?))
  {
    match s.stages[t]
    case AtLoop => e := Check(t);
    case AtGet => e := Get(t);
    case Handing => e := PutBack(t);
    case Holding(_) => e := Begin(t);
    case Undone(_) => e := TestLoop(t);
    case Running(_) => e := Return(t, true);
    case Ran(_, _) => e := CountDone(t);
    case Posting(_, _) => e := TestLoop(t);
    case Sending(_, _) => e := Send(t);
    case Forgetting(_) => e := TestForgotten(t);
    case Failing(_) => e := Fail(t);
    case Blocked =>
      if s.queue != [] {
        e := Take(t);
      } else {
        assert Handing in multiset(s.stages);
        var u :| 0 <= u < |s.stages| && s.stages[u] == Handing;
        e := PutBack(u);
      }
  }

  ghost predicate AllExited(s: State) {
    forall t :: 0 <= t < |s.stages| ==> s.stages[t].Exited?
  }

  lemma Before(maxWorkers: int, s: State, e: Event, es: seq<Event>) returns (longer: seq<Event>)
    requires Shaped(s) && Enabled(s, e) && IsRun(maxWorkers, Apply(maxWorkers, s, e), es)
    ensures longer == [e] + es && IsRun(maxWorkers, s, longer)
    ensures After(maxWorkers, s, longer) == After(maxWorkers, Apply(maxWorkers, s, e), es)
  {
    longer := [e] + es;
    assert longer[1..] == es;
  }

  /** From every state after the sentinel was put, however many threads there are, letting them run
      brings every one of them to its end. */
  lemma {:induction false} ThreadsCanExit(maxWorkers: int, s: State) returns (es: seq<Event>)
    requires Inv(maxWorkers, s) && Put(s.closer)
    ensures IsRun(maxWorkers, s, es) && AllExited(After(maxWorkers, s, es))
    ensures forall i :: 0 <= i < |es| ==> OfThread(es[i])
    decreases Left(s.stages)
  {
    es := [];
    if t: nat :| t < |s.stages| && !s.stages[t].Exited? {
      var e := NoThreadBlocksForEver(maxWorkers, s, t);
      StepOk(maxWorkers, s, e);
      StepLeaves(maxWorkers, s, e);
      assert Apply(maxWorkers, s, e).closer == s.closer;
      hide Inv, Apply, Left, AllExited;
      es := ThreadsCanExit(maxWorkers, Apply(maxWorkers, s, e));
      es := Before(maxWorkers, s, e, es);
    }
  }
}
