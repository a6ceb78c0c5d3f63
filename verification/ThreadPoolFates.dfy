/** Which outcome a future gets and why, that no task is run twice or lost, and what the statistics count. */
module ThreadPoolFates {
  import opened Basics
  import opened ThreadPoolProtocol
  import opened ThreadPoolProofs

  // --------------------------------------------------------------- where an outcome comes from

  /** The function of this task has just returned, or raised. */
  predicate IsReturn(s: State, e: Event, f: nat, ok: bool) {
    e.Return? && e.ok == ok && e.thread < |s.stages| && s.stages[e.thread] == Running(f)
  }

  /** The step that an outcome of this future goes back to. */
  predicate Origin(s: State, e: Event, f: nat, outcome: Outcome) {
    match outcome
    case Result => IsReturn(s, e, f, true)
    case Raised => IsReturn(s, e, f, false)
    case PoolClosed => e.Reject? && s.closer == Writing(f)
    case LoopClosed => e.Fail? && e.thread < |s.stages| && s.stages[e.thread] == Failing(f)
    case Cancelled => e == Cancel(f)
  }

  ghost predicate Happened(maxWorkers: int, s: State, es: seq<Event>, f: nat, outcome: Outcome)
    requires IsRun(maxWorkers, s, es)
    decreases |es|
  {
    es != [] && (Origin(s, es[0], f, outcome) || Happened(maxWorkers, Apply(maxWorkers, s, es[0]), es[1..], f, outcome))
  }

  predicate Carries(stage: Stage, f: nat, ok: bool) {
    stage == Ran(f, ok) || stage == Posting(f, ok) || stage == Sending(f, ok)
  }

  /** The outcome of the function is on its way to the future. */
  ghost predicate InTransit(s: State, f: nat, ok: bool) {
    || (exists t :: 0 <= t < |s.stages| && Carries(s.stages[t], f, ok))
    || (exists i :: 0 <= i < |s.posted| && s.posted[i] == (f, ok))
    || s.delivering == Some((f, ok))
  }

  lemma StageTransit(s: State, e: Event, f: nat, ok: bool)
    requires Shaped(s) && Enabled(s, e) && OfThread(e)
    ensures Carries(NextStage(s, e), f, ok) ==> Carries(s.stages[e.thread], f, ok) || IsReturn(s, e, f, ok)
    ensures e.Send? ==> Carries(s.stages[e.thread], s.stages[e.thread].future, s.stages[e.thread].ok)
  {
    hide Shaped;
  }

  lemma ThreadTransit(s: State, e: Event, f: nat, ok: bool)
    requires Shaped(s) && Enabled(s, e) && OfThread(e) && InTransit(ThreadMoved(s, e), f, ok)
    ensures InTransit(s, f, ok) || IsReturn(s, e, f, ok)
  {
    hide NextStage, Carries, Shaped;
    StageTransit(s, e, f, ok);
    var s' := ThreadMoved(s, e);
    if t :| 0 <= t < |s'.stages| && Carries(s'.stages[t], f, ok) {
      if t != e.thread {
        assert Carries(s.stages[t], f, ok);
      }
    } else if i :| 0 <= i < |s'.posted| && s'.posted[i] == (f, ok) {
      if i < |s.posted| {
        assert s.posted[i] == (f, ok);
      } else {
        assert Carries(s.stages[e.thread], f, ok);
      }
    }
  }

  lemma LoopTransit(s: State, e: Event, f: nat, ok: bool)
    requires Shaped(s) && Enabled(s, e) && OfLoop(e) && InTransit(LoopMoved(s, e), f, ok)
    ensures InTransit(s, f, ok)
  {
    var s' := LoopMoved(s, e);
    if i :| 0 <= i < |s'.posted| && s'.posted[i] == (f, ok) {
      assert s.posted[if e.Deliver? then i + 1 else i] == (f, ok);
    } else if t :| 0 <= t < |s'.stages| && Carries(s'.stages[t], f, ok) {
      assert Carries(s.stages[t], f, ok);
    } else if e.Deliver? {
      assert s.posted[0] == (f, ok);
    }
  }

  lemma SubmitTransit(maxWorkers: int, s: State, f: nat, ok: bool)
    requires InTransit(Submitted(maxWorkers, s), f, ok)
    ensures InTransit(s, f, ok)
  {
    var s' := Submitted(maxWorkers, s);
    hide Extra;
    if t :| 0 <= t < |s'.stages| && Carries(s'.stages[t], f, ok) {
      assert t < |s.stages| && Carries(s.stages[t], f, ok);
    }
  }

  lemma StepTransit(maxWorkers: int, s: State, e: Event, f: nat, ok: bool)
    requires Shaped(s) && Enabled(s, e) && InTransit(Apply(maxWorkers, s, e), f, ok)
    ensures InTransit(s, f, ok) || IsReturn(s, e, f, ok)
  {
    hide ThreadMoved, LoopMoved, Submitted, Shaped, Carries;
    if OfThread(e) {
      ThreadTransit(s, e, f, ok);
    } else if OfLoop(e) {
      LoopTransit(s, e, f, ok);
    } else if e.Submit? {
      SubmitTransit(maxWorkers, s, f, ok);
    }
  }

  predicate Has(s: State, f: nat, outcome: Outcome) {
    f < |s.fates| && s.fates[f] == Resolved(outcome)
  }

  predicate FromFunction(outcome: Outcome) {
    outcome.Result? || outcome.Raised?
  }

  lemma StepOutcome(maxWorkers: int, s: State, e: Event, f: nat, outcome: Outcome)
    requires Shaped(s) && Enabled(s, e) && Has(Apply(maxWorkers, s, e), f, outcome)
    ensures || Has(s, f, outcome)
            || (FromFunction(outcome) && InTransit(s, f, outcome.Result?))
            || (!FromFunction(outcome) && Origin(s, e, f, outcome))
  {
    hide Shaped, NextStage;
  }

  lemma {:induction false} RunOutcome(maxWorkers: int, s: State, es: seq<Event>, f: nat, outcome: Outcome)
    requires IsRun(maxWorkers, s, es) && Has(After(maxWorkers, s, es), f, outcome)
    ensures || Has(s, f, outcome)
            || (FromFunction(outcome) && InTransit(s, f, outcome.Result?))
            || Happened(maxWorkers, s, es, f, outcome)
    decreases |es|
  {
    if es != [] {
      var s' := Apply(maxWorkers, s, es[0]);
      RunOutcome(maxWorkers, s', es[1..], f, outcome);
      hide Apply, Enabled, Shaped, InTransit;
      if Has(s', f, outcome) {
        StepOutcome(maxWorkers, s, es[0], f, outcome);
      } else if FromFunction(outcome) && InTransit(s', f, outcome.Result?) {
        StepTransit(maxWorkers, s, es[0], f, outcome.Result?);
      }
    }
  }

  /** Over every run from the start: a future has a result only if the function of its own task returned,
      and the function's exception only if it raised; it is rejected, failed or cancelled only by a step of
      `shutdown`, of a thread that found the loop closed, or of its caller that is about this future. */
  lemma OutcomesAreEarned(maxWorkers: int, s: State, es: seq<Event>, f: nat)
    requires s == Init(maxWorkers) && IsRun(maxWorkers, s, es) && f < |After(maxWorkers, s, es).fates|
    requires After(maxWorkers, s, es).fates[f].Resolved?
    ensures Happened(maxWorkers, s, es, f, After(maxWorkers, s, es).fates[f].outcome)
  {
    RunOutcome(maxWorkers, s, es, f, After(maxWorkers, s, es).fates[f].outcome);
  }

  // ------------------------------------------------------------- no task is run twice, or lost

  predicate Busy(stage: Stage, f: nat) {
    stage == Holding(f) || stage == Undone(f) || stage == Running(f)
  }

  /** How many threads have taken the task and not finished its function. */
  ghost function BusyThreads(stages: seq<Stage>, f: nat): nat {
    multiset(stages)[Holding(f)] + multiset(stages)[Undone(f)] + multiset(stages)[Running(f)]
  }

  /** In how many places the task waits to be run or is being run. */
  ghost function Chances(s: State, f: nat): nat {
    multiset(s.queue)[Work(f)] + BusyThreads(s.stages, f)
  }

  function Unit(b: bool): nat {
    if b then 1 else 0
  }

  lemma CountUpdate<T>(xs: seq<T>, i: nat, x: T, y: T)
    requires i < |xs|
    ensures multiset(xs[i := x])[y] == multiset(xs)[y] - Unit(xs[i] == y) + Unit(x == y)
  {
  }

  lemma BusyUpdate(stages: seq<Stage>, t: nat, next: Stage, f: nat)
    requires t < |stages|
    ensures BusyThreads(stages[t := next], f)
            == BusyThreads(stages, f) - Unit(Busy(stages[t], f)) + Unit(Busy(next, f))
  {
    CountUpdate(stages, t, next, Holding(f));
    CountUpdate(stages, t, next, Undone(f));
    CountUpdate(stages, t, next, Running(f));
  }

  lemma {:induction false} BusyMore(stages: seq<Stage>, n: nat, f: nat)
    ensures BusyThreads(stages + Times(AtLoop, n), f) == BusyThreads(stages, f)
  {
    var more: seq<Stage> := Times(AtLoop, n);
    assert Holding(f) !in more && Undone(f) !in more && Running(f) !in more;
  }

  lemma WorkTail(queue: seq<Item>, f: nat)
    requires queue != []
    ensures multiset(queue)[Work(f)] == multiset(queue[1..])[Work(f)] + Unit(queue[0] == Work(f))
  {
    assert queue == [queue[0]] + queue[1..];
  }

  lemma WorkAppend(queue: seq<Item>, item: Item, f: nat)
    ensures multiset(queue + [item])[Work(f)] == multiset(queue)[Work(f)] + Unit(item == Work(f))
  {
  }

  /** Where a step of its thread leads the task. */
  lemma StageBusy(s: State, e: Event, f: nat)
    requires Shaped(s) && Enabled(s, e) && OfThread(e)
    ensures var stage, next := s.stages[e.thread], NextStage(s, e);
            && (e.Take? ==> !Busy(stage, f) && (Busy(next, f) <==> s.queue[0] == Work(f)))
            && (!e.Take? && Busy(next, f) ==> Busy(stage, f))
            && (e.Return? ==> !Busy(next, f) && (Busy(stage, f) <==> stage == Running(f)))
            && (Busy(stage, f) && !Busy(next, f) && !s.loopClosed ==>
                  e.Return? || (f < |s.fates| && s.fates[f].Resolved?))
  {
    assert StageShaped(s.stages[e.thread], |s.fates|);
    hide Shaped;
  }

  lemma ThreadChances(s: State, e: Event, f: nat)
    requires Shaped(s) && Enabled(s, e) && OfThread(e)
    ensures Chances(ThreadMoved(s, e), f)
            == Chances(s, f) - (if e.Take? then 0 else Unit(Busy(s.stages[e.thread], f)))
               + (if e.Take? then 0 else Unit(Busy(NextStage(s, e), f)))
  {
    hide NextStage, Busy, BusyThreads, Shaped;
    StageBusy(s, e, f);
    BusyUpdate(s.stages, e.thread, NextStage(s, e), f);
    if e.Take? {
      WorkTail(s.queue, f);
    } else if e.PutBack? {
      WorkAppend(s.queue, Sentinel, f);
    }
  }

  lemma OthersChances(maxWorkers: int, s: State, e: Event, f: nat)
    requires Shaped(s) && Enabled(s, e) && !OfThread(e)
    ensures Chances(Apply(maxWorkers, s, e), f) == Chances(s, f) + Unit(e.Submit? && f == |s.fates|)
  {
    hide ThreadMoved, Shaped, Extra, BusyThreads, Write;
    if e.Submit? {
      BusyMore(s.stages, Extra(maxWorkers, |s.stages|, |s.tracked|), f);
      WorkAppend(s.queue, Work(|s.fates|), f);
    } else if e.PutSentinel? {
      WorkAppend(s.queue, Sentinel, f);
    }
  }

  function Runs(s: State, e: Event, f: nat): nat {
    Unit(e.Return? && e.thread < |s.stages| && s.stages[e.thread] == Running(f))
  }

  /** How often the function of this task was run to its end. */
  ghost function TimesRun(maxWorkers: int, s: State, es: seq<Event>, f: nat): nat
    requires IsRun(maxWorkers, s, es)
    decreases |es|
  {
    if es == [] then 0 else Runs(s, es[0], f) + TimesRun(maxWorkers, Apply(maxWorkers, s, es[0]), es[1..], f)
  }

  function Submits(s: State, f: nat): nat {
    if f < |s.fates| then 1 else 0
  }

  lemma StepChances(maxWorkers: int, s: State, e: Event, f: nat)
    requires Shaped(s) && Enabled(s, e)
    ensures Chances(Apply(maxWorkers, s, e), f) + Runs(s, e, f) + Submits(s, f)
            <= Chances(s, f) + Submits(Apply(maxWorkers, s, e), f)
  {
    hide ThreadMoved, Shaped, Chances;
    if OfThread(e) {
      ThreadChances(s, e, f);
      StageBusy(s, e, f);
    } else {
      OthersChances(maxWorkers, s, e, f);
    }
  }

  lemma {:induction false} RunChances(maxWorkers: int, s: State, es: seq<Event>, f: nat)
    requires IsRun(maxWorkers, s, es)
    ensures Chances(After(maxWorkers, s, es), f) + TimesRun(maxWorkers, s, es, f) + Submits(s, f)
            <= Chances(s, f) + Submits(After(maxWorkers, s, es), f)
    decreases |es|
  {
    if es != [] {
      StepChances(maxWorkers, s, es[0], f);
      hide Apply, Chances, Submits, Runs, Enabled, Shaped;
      RunChances(maxWorkers, Apply(maxWorkers, s, es[0]), es[1..], f);
    }
  }

  /** Over every run from the start the function of a task is run at most once. */
  lemma RunsAtMostOnce(maxWorkers: int, s: State, es: seq<Event>, f: nat)
    requires s == Init(maxWorkers) && IsRun(maxWorkers, s, es)
    ensures TimesRun(maxWorkers, s, es, f) <= 1
  {
    RunChances(maxWorkers, s, es, f);
    NoChanceYet(maxWorkers, f);
  }

  lemma NoChanceYet(maxWorkers: int, f: nat)
    ensures Chances(Init(maxWorkers), f) == 0
  {
    var stages := Init(maxWorkers).stages;
    assert Holding(f) !in stages && Undone(f) !in stages && Running(f) !in stages;
  }

  /** Every pending task waits to be run, is being run, or has its outcome on the way. */
  ghost predicate NothingLost(s: State) {
    !s.loopClosed ==> forall f :: 0 <= f < |s.fates| && s.fates[f].Pending? ==> Somewhere(s, f)
  }

  ghost predicate Somewhere(s: State, f: nat) {
    0 < Chances(s, f) || InTransit(s, f, true) || InTransit(s, f, false)
  }

  /** The stage after a step of the thread that carries an outcome, on an open loop. */
  lemma StageCarries(s: State, e: Event, f: nat, ok: bool)
    requires Shaped(s) && Enabled(s, e) && OfThread(e) && !s.loopClosed && Carries(s.stages[e.thread], f, ok)
    ensures Carries(NextStage(s, e), f, ok) || (e.Send? && ThreadMoved(s, e).posted == s.posted + [(f, ok)])
  {
    hide Shaped;
  }

  lemma ThreadTransitStays(s: State, e: Event, f: nat, ok: bool)
    requires Shaped(s) && Enabled(s, e) && OfThread(e) && InTransit(s, f, ok) && !s.loopClosed
    ensures InTransit(ThreadMoved(s, e), f, ok)
  {
    hide NextStage, Carries, Shaped;
    var s' := ThreadMoved(s, e);
    if t :| 0 <= t < |s.stages| && Carries(s.stages[t], f, ok) {
      if t == e.thread {
        StageCarries(s, e, f, ok);
        assert Carries(s'.stages[t], f, ok) || s'.posted[|s.posted|] == (f, ok);
      } else {
        assert Carries(s'.stages[t], f, ok);
      }
    } else if i :| 0 <= i < |s.posted| && s.posted[i] == (f, ok) {
      assert s'.posted[i] == (f, ok);
    }
  }

  lemma LoopTransitStays(s: State, e: Event, f: nat, ok: bool)
    requires Shaped(s) && Enabled(s, e) && OfLoop(e) && InTransit(s, f, ok) && f < |s.fates|
    ensures InTransit(LoopMoved(s, e), f, ok) || LoopMoved(s, e).fates[f].Resolved?
  {
    hide Carries, Shaped;
    var s' := LoopMoved(s, e);
    if t :| 0 <= t < |s.stages| && Carries(s.stages[t], f, ok) {
      assert Carries(s'.stages[t], f, ok);
    } else if i :| 0 <= i < |s.posted| && s.posted[i] == (f, ok) {
      if e.Deliver? {
        assert i == 0 || s'.posted[i - 1] == (f, ok);
      } else {
        assert s'.posted[i] == (f, ok);
      }
    }
  }

  /** A task leaves its waiting place only for the next one. */
  lemma ThreadSomewhere(s: State, e: Event, f: nat)
    requires Shaped(s) && Enabled(s, e) && OfThread(e) && !s.loopClosed && 0 < Chances(s, f)
    requires f < |s.fates| && s.fates[f].Pending?
    ensures Somewhere(ThreadMoved(s, e), f)
  {
    hide NextStage, Chances, Shaped, Busy;
    ThreadChances(s, e, f);
    StageBusy(s, e, f);
    if e.Return? && s.stages[e.thread] == Running(f) {
      ReturnCarries(s, e, f);
    }
  }

  lemma ReturnCarries(s: State, e: Event, f: nat)
    requires Shaped(s) && Enabled(s, e) && e.Return? && s.stages[e.thread] == Running(f)
    ensures InTransit(ThreadMoved(s, e), f, e.ok)
  {
    assert Carries(ThreadMoved(s, e).stages[e.thread], f, e.ok);
  }

  lemma MoreThreadsTransit(s: State, u: State, f: nat, ok: bool)
    requires |s.stages| <= |u.stages| && forall t :: 0 <= t < |s.stages| ==> u.stages[t] == s.stages[t]
    requires u.posted == s.posted && u.delivering == s.delivering && InTransit(s, f, ok)
    ensures InTransit(u, f, ok)
  {
    hide Carries;
    if t :| 0 <= t < |s.stages| && Carries(s.stages[t], f, ok) {
      assert Carries(u.stages[t], f, ok);
    }
  }

  lemma OtherSomewhere(maxWorkers: int, s: State, e: Event, f: nat)
    requires Shaped(s) && Enabled(s, e) && (OfCloser(e) || e.Submit?) && Somewhere(s, f)
    ensures Somewhere(Apply(maxWorkers, s, e), f)
  {
    hide Chances, InTransit, ThreadMoved, LoopMoved, Shaped, Extra;
    OthersChances(maxWorkers, s, e, f);
    if ok: bool :| InTransit(s, f, ok) {
      if OfCloser(e) {
        hide CloserMoved;
        MoreThreadsTransit(s, CloserMoved(s, e), f, ok);
      } else {
        MoreThreadsTransit(s, Submitted(maxWorkers, s), f, ok);
      }
    }
  }

  lemma StepSomewhere(maxWorkers: int, s: State, e: Event, f: nat)
    requires Shaped(s) && Enabled(s, e) && !s.loopClosed && !Apply(maxWorkers, s, e).loopClosed
    requires f < |s.fates| && s.fates[f].Pending? && Somewhere(s, f)
    requires f < |Apply(maxWorkers, s, e).fates| && Apply(maxWorkers, s, e).fates[f].Pending?
    ensures Somewhere(Apply(maxWorkers, s, e), f)
  {
    hide ThreadMoved, LoopMoved, CloserMoved, Submitted, Shaped, Chances, InTransit;
    if OfThread(e) {
      if ok: bool :| InTransit(s, f, ok) {
        ThreadTransitStays(s, e, f, ok);
      } else {
        ThreadSomewhere(s, e, f);
      }
    } else if OfLoop(e) {
      if ok: bool :| InTransit(s, f, ok) {
        LoopTransitStays(s, e, f, ok);
      } else {
        OthersChances(maxWorkers, s, e, f);
      }
    } else {
      OtherSomewhere(maxWorkers, s, e, f);
    }
  }

  lemma StepLosesNothing(maxWorkers: int, s: State, e: Event)
    requires Shaped(s) && Enabled(s, e) && NothingLost(s)
    ensures NothingLost(Apply(maxWorkers, s, e))
  {
    var s' := Apply(maxWorkers, s, e);
    if !s'.loopClosed {
      forall f | 0 <= f < |s'.fates| && s'.fates[f].Pending? ensures Somewhere(s', f) {
        StepWrites(maxWorkers, s, e, f);
        assert s.loopClosed ==> s'.loopClosed;
        if f < |s.fates| {
          StepSomewhere(maxWorkers, s, e, f);
        } else {
          OthersChances(maxWorkers, s, e, f);
        }
      }
    }
  }

  /** Over every run from the start, as long as the loop is open, no task is lost. */
  lemma {:induction false} NoTaskIsLost(maxWorkers: int, s: State, es: seq<Event>)
    requires IsRun(maxWorkers, s, es) && NothingLost(s)
    ensures NothingLost(After(maxWorkers, s, es))
    decreases |es|
  {
    if es != [] {
      StepLosesNothing(maxWorkers, s, es[0]);
      hide Apply, NothingLost, Enabled, Shaped;
      NoTaskIsLost(maxWorkers, Apply(maxWorkers, s, es[0]), es[1..]);
    }
  }

  /** The queue holds the tasks in the order in which they were submitted. */
  ghost predicate InOrder(s: State) {
    && (forall i :: 0 <= i < |s.queue| && s.queue[i].Work? ==> s.queue[i].future < |s.fates|)
    && (forall i, j :: 0 <= i < j < |s.queue| && s.queue[i].Work? && s.queue[j].Work? ==>
          s.queue[i].future < s.queue[j].future)
  }

  lemma StepInOrder(maxWorkers: int, s: State, e: Event)
    requires Shaped(s) && Enabled(s, e) && InOrder(s)
    ensures InOrder(Apply(maxWorkers, s, e))
  {
    hide Shaped, NextStage, Extra, Times, LoopMoved;
    if OfThread(e) {
      hide CloserMoved, Submitted;
    } else if OfCloser(e) {
      hide ThreadMoved, Submitted, Write;
    }
  }

  /** Over every run from the start the tasks are taken in the order of their submission: what a thread
      takes is older than everything it leaves in the queue. */
  lemma {:induction false} TakenInOrder(maxWorkers: int, s: State, es: seq<Event>)
    requires IsRun(maxWorkers, s, es) && InOrder(s)
    ensures InOrder(After(maxWorkers, s, es))
    decreases |es|
  {
    if es != [] {
      StepInOrder(maxWorkers, s, es[0]);
      hide Apply, InOrder, Enabled, Shaped;
      TakenInOrder(maxWorkers, Apply(maxWorkers, s, es[0]), es[1..]);
    }
  }

  // ------------------------------------------------------------------- which tasks are begun

  /** The thread found the future of its task not done. */
  predicate FindsPending(s: State, e: Event, t: nat, f: nat) {
    && e == Begin(t) && t < |s.stages| && s.stages[t] == Holding(f)
    && f < |s.fates| && s.fates[f].Pending?
  }

  /** And then found the loop open. */
  predicate FindsOpen(s: State, e: Event, t: nat, f: nat) {
    e == TestLoop(t) && t < |s.stages| && s.stages[t] == Undone(f) && !s.loopClosed
  }

  ghost predicate Found(maxWorkers: int, s: State, es: seq<Event>, t: nat, f: nat)
    requires IsRun(maxWorkers, s, es)
    decreases |es|
  {
    es != [] && (FindsPending(s, es[0], t, f) || Found(maxWorkers, Apply(maxWorkers, s, es[0]), es[1..], t, f))
  }

  ghost predicate FoundOpen(maxWorkers: int, s: State, es: seq<Event>, t: nat, f: nat)
    requires IsRun(maxWorkers, s, es)
    decreases |es|
  {
    es != [] && (FindsOpen(s, es[0], t, f) || FoundOpen(maxWorkers, Apply(maxWorkers, s, es[0]), es[1..], t, f))
  }

  predicate At(s: State, t: nat, stage: Stage) {
    t < |s.stages| && s.stages[t] == stage
  }

  lemma StepBegins(maxWorkers: int, s: State, e: Event, t: nat, f: nat)
    requires Shaped(s) && Enabled(s, e)
    ensures At(Apply(maxWorkers, s, e), t, Undone(f)) ==> At(s, t, Undone(f)) || FindsPending(s, e, t, f)
    ensures At(Apply(maxWorkers, s, e), t, Running(f)) ==> At(s, t, Running(f)) || FindsOpen(s, e, t, f)
  {
    if OfThread(e) {
      assert StageShaped(s.stages[e.thread], |s.fates|);
    }
    hide Shaped, StageShaped, Extra;
  }

  lemma {:induction false} RunBegins(maxWorkers: int, s: State, es: seq<Event>, t: nat, f: nat)
    requires IsRun(maxWorkers, s, es)
    ensures At(After(maxWorkers, s, es), t, Undone(f)) ==> At(s, t, Undone(f)) || Found(maxWorkers, s, es, t, f)
    ensures At(After(maxWorkers, s, es), t, Running(f)) ==>
              || At(s, t, Running(f))
              || (FoundOpen(maxWorkers, s, es, t, f) && (At(s, t, Undone(f)) || Found(maxWorkers, s, es, t, f)))
    decreases |es|
  {
    if es != [] {
      StepBegins(maxWorkers, s, es[0], t, f);
      hide Apply, Enabled, Shaped, At, FindsPending;
      RunBegins(maxWorkers, Apply(maxWorkers, s, es[0]), es[1..], t, f);
      OpenNeedsUndone(s, es[0], t, f);
    }
  }

  lemma OpenNeedsUndone(s: State, e: Event, t: nat, f: nat)
    ensures FindsOpen(s, e, t, f) ==> At(s, t, Undone(f))
  {
  }

  /** Over every run from the start: a function is only run if its thread found the future not done, and
      after that the loop open. */
  lemma RunningWasTested(maxWorkers: int, s: State, es: seq<Event>, t: nat, f: nat)
    requires s == Init(maxWorkers) && IsRun(maxWorkers, s, es) && At(After(maxWorkers, s, es), t, Running(f))
    ensures Found(maxWorkers, s, es, t, f) && FoundOpen(maxWorkers, s, es, t, f)
  {
    RunBegins(maxWorkers, s, es, t, f);
  }

  /** The channel is closed, and the thread is between two items or gone. */
  predicate Resting(s: State, t: nat) {
    && !s.closer.Open? && !s.closer.Flagged?
    && t < |s.stages| == |s.taken| && (s.stages[t].AtLoop? || s.stages[t].AtGet? || s.stages[t].Exited?)
  }

  lemma StepRests(maxWorkers: int, s: State, e: Event, t: nat)
    requires Shaped(s) && Enabled(s, e) && Resting(s, t)
    ensures Resting(Apply(maxWorkers, s, e), t) && Apply(maxWorkers, s, e).taken[t] == s.taken[t]
  {
    hide Shaped, LoopMoved;
  }

  /** A closed channel gives nothing more: a thread that asks it for an item leaves without one. */
  lemma {:induction false} ClosedChannelGivesNothing(maxWorkers: int, s: State, es: seq<Event>, t: nat)
    requires IsRun(maxWorkers, s, es) && Resting(s, t)
    ensures Resting(After(maxWorkers, s, es), t) && After(maxWorkers, s, es).taken[t] == s.taken[t]
    decreases |es|
  {
    if es != [] {
      StepRests(maxWorkers, s, es[0], t);
      hide Apply, Enabled, Shaped;
      ClosedChannelGivesNothing(maxWorkers, Apply(maxWorkers, s, es[0]), es[1..], t);
    }
  }

  // -------------------------------------------------------------------------- the statistics

  function Returns(es: seq<Event>, ok: bool): nat {
    if es == [] then 0 else Unit(es[0].Return? && es[0].ok == ok) + Returns(es[1..], ok)
  }

  function Submissions(es: seq<Event>): nat {
    if es == [] then 0 else Unit(es[0].Submit?) + Submissions(es[1..])
  }

  function CountedDone(es: seq<Event>): nat {
    if es == [] then 0 else Unit(es[0].CountDone?) + CountedDone(es[1..])
  }

  lemma StepStats(maxWorkers: int, s: State, e: Event)
    requires Shaped(s) && Enabled(s, e)
    ensures var a, b := s.stats, Apply(maxWorkers, s, e).stats;
            b == Stats(a.success + Unit(e.Return? && e.ok), a.error + Unit(e.Return? && !e.ok),
                       a.done + Unit(e.CountDone?), a.submitted + Unit(e.Submit?))
  {
    hide Shaped, NextStage, Extra;
  }

  /** Over every run: success and error are the functions that returned and raised, done and submitted the
      tasks counted done and submitted. */
  lemma {:induction false} StatisticsCount(maxWorkers: int, s: State, es: seq<Event>)
    requires IsRun(maxWorkers, s, es)
    ensures var a, b := s.stats, After(maxWorkers, s, es).stats;
            && b.success == a.success + Returns(es, true) && b.error == a.error + Returns(es, false)
            && b.done == a.done + CountedDone(es) && b.submitted == a.submitted + Submissions(es)
    decreases |es|
  {
    if es != [] {
      StepStats(maxWorkers, s, es[0]);
      hide Apply, Enabled, Shaped;
      StatisticsCount(maxWorkers, Apply(maxWorkers, s, es[0]), es[1..]);
    }
  }
}
