/** Runs in which `shutdown` of the thread pool raises, and the futures it leaves behind. */
module ThreadPoolRuns {
  import opened Basics
  import opened ThreadPoolProtocol
  import opened ThreadPoolProofs

  /** One more step at the end of a run. */
  lemma {:induction false} Extend(maxWorkers: int, s: State, es: seq<Event>, e: Event, u: State)
    requires Inv(maxWorkers, s) && IsRun(maxWorkers, s, es)
    requires Shaped(After(maxWorkers, s, es)) && Enabled(After(maxWorkers, s, es), e)
    requires u == Apply(maxWorkers, After(maxWorkers, s, es), e)
    ensures IsRun(maxWorkers, s, es + [e]) && After(maxWorkers, s, es + [e]) == u && Inv(maxWorkers, u) && Shaped(u)
    decreases |es|
  {
    hide Apply, Enabled, Inv;
    if es == [] {
      StepOk(maxWorkers, s, e);
      InvIsShaped(maxWorkers, u);
      assert [e][1..] == [];
    } else {
      StepOk(maxWorkers, s, es[0]);
      Extend(maxWorkers, Apply(maxWorkers, s, es[0]), es[1..], e, u);
      assert (es + [e])[1..] == es[1..] + [e];
    }
  }

  lemma InvIsShaped(maxWorkers: int, s: State)
    requires Inv(maxWorkers, s)
    ensures Shaped(s)
  {
  }

  /** The run leads from `s0` to `u`. */
  ghost predicate Reaches(maxWorkers: int, s0: State, es: seq<Event>, u: State) {
    && Inv(maxWorkers, s0) && IsRun(maxWorkers, s0, es) && After(maxWorkers, s0, es) == u
    && Inv(maxWorkers, u) && Shaped(u)
  }

  lemma Start(maxWorkers: int, s: State)
    requires Inv(maxWorkers, s)
    ensures Reaches(maxWorkers, s, [], s)
  {
  }

  lemma Then(maxWorkers: int, s0: State, es: seq<Event>, s: State, e: Event, u: State)
    returns (longer: seq<Event>)
    requires Reaches(maxWorkers, s0, es, s) && Shaped(s) && Enabled(s, e) && Apply(maxWorkers, s, e) == u
    ensures longer == es + [e] && Reaches(maxWorkers, s0, longer, u) && Shaped(u)
  {
    hide Apply, Enabled, Inv;
    Extend(maxWorkers, s0, es, e, u);
    longer := es + [e];
  }

  lemma ThenCloser(maxWorkers: int, s0: State, es: seq<Event>, s: State, e: Event, u: State)
    returns (longer: seq<Event>)
    requires Reaches(maxWorkers, s0, es, s) && Shaped(s) && Enabled(s, e) && OfCloser(e) && CloserMoved(s, e) == u
    ensures longer == es + [e] && Reaches(maxWorkers, s0, longer, u) && Shaped(u)
  {
    hide CloserMoved, Reaches, Shaped, Enabled;
    longer := Then(maxWorkers, s0, es, s, e, u);
  }

  lemma ThenLoop(maxWorkers: int, s0: State, es: seq<Event>, s: State, e: Event, u: State)
    returns (longer: seq<Event>)
    requires Reaches(maxWorkers, s0, es, s) && Shaped(s) && Enabled(s, e) && OfLoop(e) && LoopMoved(s, e) == u
    ensures longer == es + [e] && Reaches(maxWorkers, s0, longer, u) && Shaped(u)
  {
    hide LoopMoved, Reaches, Shaped, Enabled;
    longer := Then(maxWorkers, s0, es, s, e, u);
  }

  lemma ThenThread(maxWorkers: int, s0: State, es: seq<Event>, s: State, e: Event, u: State)
    returns (longer: seq<Event>)
    requires Reaches(maxWorkers, s0, es, s) && Shaped(s) && Enabled(s, e) && OfThread(e) && ThreadMoved(s, e) == u
    ensures longer == es + [e] && Reaches(maxWorkers, s0, longer, u) && Shaped(u)
  {
    hide ThreadMoved, Reaches, Shaped, Enabled;
    longer := Then(maxWorkers, s0, es, s, e, u);
  }

  lemma ReachedIsShaped(maxWorkers: int, s0: State, es: seq<Event>, s: State)
    requires Reaches(maxWorkers, s0, es, s)
    ensures Shaped(s) && Inv(maxWorkers, s)
  {
  }

  // ------------------------------------------------------------------ what shutdown does first

  lemma ShutdownBegins(maxWorkers: int, s0: State, es: seq<Event>, s: State, u: State)
    returns (longer: seq<Event>)
    requires Reaches(maxWorkers, s0, es, s) && s.closer.Open?
    requires u == s.(closer := AtWhile, queue := s.queue + [Sentinel])
    ensures Reaches(maxWorkers, s0, longer, u) && Shaped(u)
  {
    hide Reaches, Inv, Shaped, Apply;
    ReachedIsShaped(maxWorkers, s0, es, s);
    var s1, s2 := s.(closer := Flagged), s.(closer := Shut);
    longer := ThenCloser(maxWorkers, s0, es, s, Flag, s1);
    longer := ThenCloser(maxWorkers, s0, longer, s1, Close, s2);
    longer := ThenCloser(maxWorkers, s0, longer, s2, PutSentinel, u);
  }

  /** `shutdown` takes the pending future `f` and sees that it is not done. */
  lemma ShutdownTests(maxWorkers: int, s0: State, es: seq<Event>, s: State, f: nat, u: State)
    returns (longer: seq<Event>)
    requires Reaches(maxWorkers, s0, es, s) && s.closer.Open? && f in s.tracked && f < |s.fates| && s.fates[f].Pending?
    requires u == s.(closer := Writing(f), queue := s.queue + [Sentinel], tracked := s.tracked - {f})
    ensures Reaches(maxWorkers, s0, longer, u) && Shaped(u)
  {
    hide Reaches, Inv, Shaped, Apply;
    var v := s.(closer := AtWhile, queue := s.queue + [Sentinel]);
    longer := ShutdownBegins(maxWorkers, s0, es, s, v);
    var v1 := v.(closer := Popping);
    var v2 := v.(closer := Popped(f), tracked := v.tracked - {f});
    longer := ThenCloser(maxWorkers, s0, longer, v, While, v1);
    longer := ThenCloser(maxWorkers, s0, longer, v1, Pop(f), v2);
    longer := ThenCloser(maxWorkers, s0, longer, v2, TestPopped, u);
  }

  // -------------------------------------------------------------------- three ways to fail

  /** Two tasks are pending and `shutdown` has not begun. */
  ghost predicate TwoPending(s: State, f: nat, g: nat) {
    && s.closer.Open? && s.delivering.None? && f != g && f in s.tracked && g in s.tracked
    && f < |s.fates| && g < |s.fates| && s.fates[f].Pending? && s.fates[g].Pending?
  }

  /** What `shutdown` has made of `s` when it raised with `cause`. */
  ghost predicate AbortedFrom(s: State, u: State, cause: Cause) {
    && u.closer == Aborted(cause) && u.stages == s.stages && u.delivering.None? && |u.fates| == |s.fates|
  }

  lemma RaceFrom(maxWorkers: int, s0: State, es: seq<Event>, s: State, f: nat, g: nat)
    returns (longer: seq<Event>, u: State)
    requires Reaches(maxWorkers, s0, es, s) && TwoPending(s, f, g)
    requires !s.loopClosed && s.posted != [] && s.posted[0].0 == f
    ensures Reaches(maxWorkers, s0, longer, u) && AbortedFrom(s, u, InvalidState)
    ensures u.posted == s.posted[1..] && u.fates[g].Pending? && u.fates[f].Resolved?
  {
    hide Reaches, Inv, Shaped, Apply;
    var v := s.(closer := Writing(f), queue := s.queue + [Sentinel], tracked := s.tracked - {f});
    longer := ShutdownTests(maxWorkers, s0, es, s, f, v);
    var ok := s.posted[0].1;
    var v1 := v.(posted := s.posted[1..], delivering := Some(s.posted[0]));
    var v2 := v1.(delivering := None, fates := s.fates[f := Resolved(if ok then Result else Raised)]);
    u := v2.(closer := Aborted(InvalidState));
    longer := ThenLoop(maxWorkers, s0, longer, v, Deliver, v1);
    longer := ThenLoop(maxWorkers, s0, longer, v1, SetResult, v2);
    longer := ThenCloser(maxWorkers, s0, longer, v2, Reject, u);
  }

  /** A race that `shutdown` loses: with the result of `f` on its way to the loop, the loop may set it
      between the test and the rejection of `f`; then `shutdown` raises and `g` stays pending. */
  lemma RaceAbortsShutdown(maxWorkers: int, s: State, f: nat, g: nat) returns (es: seq<Event>, u: State)
    requires Inv(maxWorkers, s) && TwoPending(s, f, g)
    requires !s.loopClosed && s.posted != [] && s.posted[0].0 == f
    ensures IsRun(maxWorkers, s, es) && After(maxWorkers, s, es) == u && AbortedFrom(s, u, InvalidState)
    ensures u.fates[g].Pending?
  {
    hide Inv, IsRun, After;
    Start(maxWorkers, s);
    es, u := RaceFrom(maxWorkers, s, [], s, f, g);
  }

  lemma ClosedLoopFrom(maxWorkers: int, s0: State, es: seq<Event>, s: State, f: nat, g: nat)
    returns (longer: seq<Event>, u: State)
    requires Reaches(maxWorkers, s0, es, s) && TwoPending(s, f, g)
    ensures Reaches(maxWorkers, s0, longer, u) && AbortedFrom(s, u, ClosedLoop)
    ensures u.loopClosed && u.fates[g].Pending?
  {
    hide Reaches, Inv, Shaped, Apply;
    ReachedIsShaped(maxWorkers, s0, es, s);
    var c := s.(loopClosed := true);
    longer := ThenLoop(maxWorkers, s0, es, s, CloseLoop, c);
    var v := c.(closer := Writing(f), queue := s.queue + [Sentinel], tracked := s.tracked - {f});
    longer := ShutdownTests(maxWorkers, s0, longer, c, f, v);
    u := v.(fates := s.fates[f := Resolved(PoolClosed)], closer := Aborted(ClosedLoop));
    longer := ThenCloser(maxWorkers, s0, longer, v, Reject, u);
  }

  /** On a closed loop `shutdown` raises at its first pending future, and the other stays pending. */
  lemma ClosedLoopAbortsShutdown(maxWorkers: int, s: State, f: nat, g: nat) returns (es: seq<Event>, u: State)
    requires Inv(maxWorkers, s) && TwoPending(s, f, g)
    ensures IsRun(maxWorkers, s, es) && After(maxWorkers, s, es) == u && AbortedFrom(s, u, ClosedLoop)
    ensures u.fates[g].Pending?
  {
    hide Inv, IsRun, After;
    Start(maxWorkers, s);
    es, u := ClosedLoopFrom(maxWorkers, s, [], s, f, g);
  }

  lemma DiscardFrom(maxWorkers: int, s0: State, es: seq<Event>, s: State, f: nat)
    returns (longer: seq<Event>, u: State)
    requires Reaches(maxWorkers, s0, es, s) && s.closer.Open? && s.delivering.None? && !s.loopClosed
    requires s.tracked == {f} && f < |s.fates| && s.fates[f].Resolved?
    ensures Reaches(maxWorkers, s0, longer, u) && AbortedFrom(s, u, KeyError) && u.fates == s.fates
  {
    hide Reaches, Inv, Shaped, Apply;
    var v := s.(closer := AtWhile, queue := s.queue + [Sentinel]);
    longer := ShutdownBegins(maxWorkers, s0, es, s, v);
    var v1 := v.(closer := Popping);
    var v2 := v1.(tracked := {});
    u := v2.(closer := Aborted(KeyError));
    longer := ThenCloser(maxWorkers, s0, longer, v, While, v1);
    longer := ThenLoop(maxWorkers, s0, longer, v1, Discard(f), v2);
    longer := ThenCloser(maxWorkers, s0, longer, v2, PopEmpty, u);
  }

  /** If the last future, done already, is discarded between the test of the set and the pop, then
      `shutdown` raises KeyError, with nothing left to reject. */
  lemma DiscardAbortsShutdown(maxWorkers: int, s: State, f: nat) returns (es: seq<Event>, u: State)
    requires Inv(maxWorkers, s) && s.closer.Open? && s.delivering.None? && !s.loopClosed
    requires s.tracked == {f} && f < |s.fates| && s.fates[f].Resolved?
    ensures IsRun(maxWorkers, s, es) && After(maxWorkers, s, es) == u && AbortedFrom(s, u, KeyError) && AllResolved(u)
  {
    OnlyTracked(maxWorkers, s, f);
    hide Inv, IsRun, After;
    Start(maxWorkers, s);
    es, u := DiscardFrom(maxWorkers, s, [], s, f);
  }

  lemma OnlyTracked(maxWorkers: int, s: State, f: nat)
    requires Inv(maxWorkers, s) && s.closer.Open? && s.tracked == {f} && f < |s.fates| && s.fates[f].Resolved?
    ensures AllResolved(s)
  {
  }

  // ------------------------------------------------------------------ from the start to the end

  lemma FirstTask(maxWorkers: int, s0: State, es: seq<Event>, s: State, t: nat, f: nat, u: State)
    returns (longer: seq<Event>)
    requires Reaches(maxWorkers, s0, es, s) && s.closer.Open? && !s.loopClosed
    requires t < |s.stages| && s.stages[t].AtLoop? && f < |s.fates| && s.fates[f].Pending?
    requires s.queue != [] && s.queue[0] == Work(f)
    requires u == s.(stages := s.stages[t := Running(f)], queue := s.queue[1..])
    ensures Reaches(maxWorkers, s0, longer, u) && Shaped(u)
  {
    hide Reaches, Inv, Shaped, Apply;
    ReachedIsShaped(maxWorkers, s0, es, s);
    var s1 := SetStage(s, t, AtGet);
    var s2 := SetStage(s, t, Blocked);
    var s3 := SetStage(s, t, Holding(f)).(queue := s.queue[1..]);
    var s4 := SetStage(s3, t, Undone(f));
    longer := ThenThread(maxWorkers, s0, es, s, Check(t), s1);
    longer := ThenThread(maxWorkers, s0, longer, s1, Get(t), s2);
    longer := ThenThread(maxWorkers, s0, longer, s2, Take(t), s3);
    longer := ThenThread(maxWorkers, s0, longer, s3, Begin(t), s4);
    longer := ThenThread(maxWorkers, s0, longer, s4, TestLoop(t), u);
  }

  lemma TaskReturns(maxWorkers: int, s0: State, es: seq<Event>, s: State, t: nat, f: nat, u: State)
    returns (longer: seq<Event>)
    requires Reaches(maxWorkers, s0, es, s) && !s.loopClosed && t < |s.stages| && s.stages[t] == Running(f)
    requires u == s.(stages := s.stages[t := AtLoop], posted := s.posted + [(f, true)],
                     stats := s.stats.(success := s.stats.success + 1, done := s.stats.done + 1))
    ensures Reaches(maxWorkers, s0, longer, u) && Shaped(u)
  {
    hide Reaches, Inv, Shaped, Apply;
    ReachedIsShaped(maxWorkers, s0, es, s);
    var s1 := SetStage(s, t, Ran(f, true)).(stats := s.stats.(success := s.stats.success + 1));
    var s2 := SetStage(s, t, Posting(f, true)).(stats := u.stats);
    var s3 := SetStage(s2, t, Sending(f, true));
    longer := ThenThread(maxWorkers, s0, es, s, Return(t, true), s1);
    longer := ThenThread(maxWorkers, s0, longer, s1, CountDone(t), s2);
    longer := ThenThread(maxWorkers, s0, longer, s2, TestLoop(t), s3);
    longer := ThenThread(maxWorkers, s0, longer, s3, Send(t), u);
  }

  /** A pool of one thread that has been given two tasks. */
  function TwoTasks(): State {
    State([AtLoop], [0], [Work(0), Work(1)], [Pending, Pending], {0, 1}, [], None, false, Open, Stats(0, 0, 0, 2))
  }

  function OneTask(): State {
    State([AtLoop], [0], [Work(0)], [Pending], {0}, [], None, false, Open, Stats(0, 0, 0, 1))
  }

  lemma StartOfOne()
    ensures Init(1) == State([AtLoop], [0], [], [], {}, [], None, false, Open, Stats(0, 0, 0, 0))
    ensures Reaches(1, Init(1), [], Init(1)) && Shaped(Init(1))
  {
    InitOk(1);
    Start(1, Init(1));
  }

  lemma OneSubmitted() returns (es: seq<Event>)
    ensures Reaches(1, Init(1), es, OneTask()) && Shaped(OneTask())
  {
    hide Inv, Reaches, Apply, Shaped, Init;
    StartOfOne();
    SubmitsOne(Init(1), OneTask());
    es := Then(1, Init(1), [], Init(1), Submit, OneTask());
  }

  lemma TwoSubmitted() returns (es: seq<Event>)
    ensures Reaches(1, Init(1), es, TwoTasks())
  {
    hide Inv, Reaches, Apply, Shaped, Init;
    es := OneSubmitted();
    SubmitsOne(OneTask(), TwoTasks());
    es := Then(1, Init(1), es, OneTask(), Submit, TwoTasks());
  }

  lemma SubmitsOne(s: State, u: State)
    requires Shaped(s) && s.closer.Open? && |s.stages| == 1
    requires u == s.(queue := s.queue + [Work(|s.fates|)], tracked := s.tracked + {|s.fates|},
                     fates := s.fates + [Pending], stats := s.stats.(submitted := s.stats.submitted + 1))
    ensures Apply(1, s, Submit) == u
  {
    assert s.stages + Times(AtLoop, 0) == s.stages && s.taken + Times(0, 0) == s.taken;
  }

  /** `shutdown` has raised, every thread is gone, and no result is on its way. */
  ghost predicate Deserted(s: State) {
    && Shaped(s) && s.closer.Aborted? && AllExited(s)
    && s.delivering.None? && (s.posted == [] || s.loopClosed)
  }

  lemma DesertedStep(maxWorkers: int, s: State, e: Event)
    requires Deserted(s) && Enabled(s, e)
    ensures Deserted(Apply(maxWorkers, s, e)) && |Apply(maxWorkers, s, e).fates| == |s.fates|
    ensures forall f :: 0 <= f < |s.fates| && s.fates[f].Pending? && e != Cancel(f) ==>
              Apply(maxWorkers, s, e).fates[f].Pending?
  {
    hide ThreadMoved, CloserMoved, Submitted, StageShaped;
    assert OfLoop(e);
  }

  ghost predicate Cancelled(es: seq<Event>, f: nat) {
    exists i :: 0 <= i < |es| && es[i] == Cancel(f)
  }

  /** In a deserted pool a future that is pending stays pending for ever, unless its caller cancels it. */
  lemma {:induction false} PendingForEver(maxWorkers: int, s: State, es: seq<Event>, f: nat)
    requires Deserted(s) && IsRun(maxWorkers, s, es) && f < |s.fates| && s.fates[f].Pending? && !Cancelled(es, f)
    ensures f < |After(maxWorkers, s, es).fates| && After(maxWorkers, s, es).fates[f].Pending?
    decreases |es|
  {
    if es != [] {
      DesertedStep(maxWorkers, s, es[0]);
      assert forall i :: 0 <= i < |es[1..]| ==> es[1..][i] == es[i + 1];
      hide Deserted, Apply;
      PendingForEver(maxWorkers, Apply(maxWorkers, s, es[0]), es[1..], f);
    }
  }

  /** Whatever happens after the run `es` from the start, future `f` is never resolved unless cancelled. */
  ghost predicate Strands(maxWorkers: int, es: seq<Event>, f: nat) {
    && IsRun(maxWorkers, Init(maxWorkers), es)
    && var u := After(maxWorkers, Init(maxWorkers), es);
    && u.closer.Aborted? && f < u.stats.submitted
    && forall more :: IsRun(maxWorkers, u, more) && !Cancelled(more, f) ==>
         f < |After(maxWorkers, u, more).fates| && After(maxWorkers, u, more).fates[f].Pending?
  }

  /** The last thread leaves, and the pool is deserted with future 1 pending. */
  lemma LastThreadLeaves(es: seq<Event>, s: State) returns (longer: seq<Event>)
    requires Reaches(1, Init(1), es, s) && s.stages == [AtLoop] && s.closer.Aborted? && s.delivering.None?
    requires s.posted == [] || s.loopClosed
    requires |s.fates| == 2 && s.fates[1].Pending?
    ensures Strands(1, longer, 1)
  {
    ReachedIsShaped(1, Init(1), es, s);
    var u := s.(stages := [Exited]);
    longer := LastCheck(es, s, u);
    assert Deserted(u);
    Unfold(1, Init(1), longer, u);
    assert s.stats.submitted == 2;
    hide Inv, Deserted;
    forall more | IsRun(1, u, more) && !Cancelled(more, 1)
      ensures 1 < |After(1, u, more).fates| && After(1, u, more).fates[1].Pending?
    {
      PendingForEver(1, u, more, 1);
    }
  }

  lemma LastCheck(es: seq<Event>, s: State, u: State) returns (longer: seq<Event>)
    requires Reaches(1, Init(1), es, s) && s.stages == [AtLoop] && s.closer.Aborted? && u == s.(stages := [Exited])
    ensures Reaches(1, Init(1), longer, u) && Shaped(u)
  {
    hide Reaches, Inv, Shaped, Apply, Init;
    ReachedIsShaped(1, Init(1), es, s);
    longer := ThenThread(1, Init(1), es, s, Check(0), u);
  }

  lemma Unfold(maxWorkers: int, s0: State, es: seq<Event>, u: State)
    requires Reaches(maxWorkers, s0, es, u)
    ensures IsRun(maxWorkers, s0, es) && After(maxWorkers, s0, es) == u && Inv(maxWorkers, u)
  {
  }

  /** From the start: one thread, two tasks.  The first is run, its result is set between the test and the
      rejection of its future, and the second is never run and never resolved. */
  lemma RaceStrandsATask() returns (es: seq<Event>)
    ensures Strands(1, es, 1)
  {
    hide Reaches, Inv, Init, Strands;
    es := TwoSubmitted();
    var s := TwoTasks();
    var s1 := s.(stages := [Running(0)], queue := [Work(1)]);
    var s2 := s1.(stages := [AtLoop], posted := [(0, true)], stats := Stats(1, 0, 1, 2));
    es := FirstTask(1, Init(1), es, s, 0, 0, s1);
    es := TaskReturns(1, Init(1), es, s1, 0, 0, s2);
    var u;
    es, u := RaceFrom(1, Init(1), es, s2, 0, 1);
    es := LastThreadLeaves(es, u);
  }

  /** From the start: one thread, two tasks, and a loop that is closed before `shutdown`. */
  lemma ClosedLoopStrandsATask() returns (es: seq<Event>)
    ensures Strands(1, es, 1)
  {
    hide Reaches, Inv, Init, Strands;
    es := TwoSubmitted();
    var u;
    es, u := ClosedLoopFrom(1, Init(1), es, TwoTasks(), 0, 1);
    es := LastThreadLeaves(es, u);
  }

  /** From the start: one thread, one task that is cancelled and discarded just before the pop. */
  lemma DiscardFromTheStart() returns (es: seq<Event>)
    ensures IsRun(1, Init(1), es) && After(1, Init(1), es).closer == Aborted(KeyError)
  {
    hide Inv, Reaches, Apply, Shaped, Init, IsRun, After;
    es := OneSubmitted();
    var s := OneTask().(fates := [Resolved(Outcome.Cancelled)]);
    es := ThenLoop(1, Init(1), es, OneTask(), Cancel(0), s);
    var u;
    es, u := DiscardFrom(1, Init(1), es, s, 0);
    Unfold(1, Init(1), es, u);
  }
}
