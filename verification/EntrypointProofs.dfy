/** What every run of a group startup keeps: the join, the exception that propagates, and progress. */
module EntrypointProofs {
  import opened Basics
  import opened EntrypointProtocol

  // ---------------------------------------------------------- one startup task at a time

  lemma AbandonedOk(c: Startup, cause: Exc, listed: bool, kept: bool)
    requires StartupOk(c, listed, kept) && (c.stage.WaitingFirst? || c.stage.AwaitingReady?)
    requires cause != CancelledError ==> c.start == Done(Some(cause))
    ensures StartupOk(Abandoned(c, cause), listed, kept)
  {
  }

  lemma WakeKeepsOk(c: Startup, listed: bool, kept: bool)
    requires CanWake(c) && StartupOk(c, listed, kept)
    ensures StartupOk(Woken(c), listed, kept || Registers(c))
  {
    if c.stage.WaitingFirst? || c.stage.AwaitingReady? {
      if c.marked {
        AbandonedOk(c, CancelledError, listed, kept);
      } else if c.ready.Done? && c.ready.exc.Some? {
        AbandonedOk(c, c.ready.exc.value, listed, kept);
      } else if c.ready.Done? && c.start.Done? && c.start.exc.Some? {
        AbandonedOk(c, c.start.exc.value, listed, kept);
      }
    }
    hide Abandoned;
  }

  /** What a startup does when it goes on: the cause it was joining for, the cancellation, or what its
      start task has come to. */
  lemma WokenMeans(c: Startup)
    requires CanWake(c)
    ensures c.stage.Joining? ==>
              && Woken(c).stage == (if c.stage.settled then Finished(Some(c.stage.cause)) else c.stage)
              && !Registers(c)
    ensures !c.stage.Joining? && c.marked ==> Woken(c).stage == Joining(CancelledError, false) && !Registers(c)
    ensures !c.stage.Joining? && !c.marked && c.ready == Done(None) ==>
              match c.start
              case Done(Some(exc)) => Woken(c).stage == Joining(exc, false) && !Registers(c)
              case Done(None) => Woken(c).stage == Finished(None) && !Registers(c)
              case _ => Woken(c).stage == Finished(None) && Registers(c)
  {
  }

  lemma MoveKeepsOk(c: Startup, e: Event, listed: bool, kept: bool)
    requires OfStartup(e) && CanMove(c, e) && StartupOk(c, listed, kept)
    ensures StartupOk(Moved(c, e), listed || Lists(c, e), kept || Keeps(c, e))
  {
    hide Woken, CanWake, Registers;
    if e.Wake? {
      WakeKeepsOk(c, listed, kept);
    }
  }

  /** A startup only moves on: doomed stays doomed, finished stays as it is, blame stays, and one that
      joins its tasks will raise what it caught before. */
  ghost predicate Onward(c: Startup, d: Startup) {
    && (Doomed(c) ==> Doomed(d))
    && (c.stage.Finished? ==> d.stage == c.stage)
    && (forall x :: Culprit(c, x) ==> Culprit(d, x))
    && (c.stage.Joining? ==>
          d.stage == Finished(Some(c.stage.cause)) || (d.stage.Joining? && d.stage.cause == c.stage.cause))
  }

  ghost predicate AllOnward(cs: seq<Startup>, ds: seq<Startup>) {
    |cs| == |ds| && forall i :: 0 <= i < |cs| ==> Onward(cs[i], ds[i])
  }

  lemma MoveIsOnward(c: Startup, e: Event)
    requires OfStartup(e) && CanMove(c, e)
    requires c.stage.Finished? ==> c.start.Done? || c.start.NotCreated? || c.stage.exc.None?
    ensures Onward(c, Moved(c, e))
    ensures Doomed(c) ==> !Keeps(c, e)
    ensures !e.Collect? ==> Moved(c, e).seen == c.seen
  {
  }

  lemma MoveKeepsUntouched(c: Startup, e: Event)
    requires OfStartup(e) && CanMove(c, e) && !Cancels(e) && Untouched(c)
    requires c.stage.Created? ==> c.start.NotCreated?
    ensures Untouched(Moved(c, e))
  {
  }

  /** Cancelling a startup task keeps its invariant and dooms it. */
  lemma CancelledOk(c: Startup, listed: bool, kept: bool)
    requires StartupOk(c, listed, kept)
    ensures StartupOk(Cancelled(c), listed, kept) && Doomed(Cancelled(c)) && Onward(c, Cancelled(c))
    ensures Cancelled(c).seen == c.seen && Cancelled(c).stage == c.stage
  {
  }

  lemma CancelAllOk(s: State, t: State)
    requires StartupsOk(s) && t.startups == CancelAll(s.startups) && t.services == s.services && t.tasks == s.tasks
    ensures StartupsOk(t) && AllDoomed(t.startups) && AllOnward(s.startups, t.startups)
    ensures SameMarks(s.startups, t.startups)
    ensures forall i :: 0 <= i < |s.startups| ==> t.startups[i].stage == s.startups[i].stage
  {
    hide StartupOk, Doomed, Onward, Cancelled;
    forall i | 0 <= i < |s.startups|
      ensures StartupOk(t.startups[i], i in t.services, i in t.tasks) && Doomed(t.startups[i])
      ensures Onward(s.startups[i], t.startups[i])
      ensures t.startups[i].seen == s.startups[i].seen && t.startups[i].stage == s.startups[i].stage
    {
      CancelledOk(s.startups[i], i in s.services, i in s.tasks);
    }
  }

  ghost predicate SameMarks(cs: seq<Startup>, ds: seq<Startup>) {
    |cs| == |ds| && forall i :: 0 <= i < |cs| ==> ds[i].seen == cs[i].seen
  }

  lemma ExplainedOnward(s: State, t: State, exc: Exc)
    requires Explained(s, exc) && AllOnward(s.startups, t.startups) && (s.disturbed ==> t.disturbed)
    ensures Explained(t, exc)
  {
    if Blamed(s.startups, exc) {
      var i :| 0 <= i < |s.startups| && Culprit(s.startups[i], exc);
      assert Onward(s.startups[i], t.startups[i]) && Culprit(t.startups[i], exc);
    }
  }

  lemma GroupOnward(s: State, t: State)
    requires GroupOk(s) && t.group == s.group && AllOnward(s.startups, t.startups) && (s.disturbed ==> t.disturbed)
    requires t.cancelRequested == s.cancelRequested
    ensures GroupOk(t)
  {
    hide Doomed, Culprit, Explained;
    forall x | Explained(s, x) ensures Explained(t, x) {
      ExplainedOnward(s, t, x);
    }
  }

  lemma GatherOnward(s: State, t: State)
    requires GatherOk(s) && t.gather == s.gather && AllOnward(s.startups, t.startups) && (s.disturbed ==> t.disturbed)
    requires SameMarks(s.startups, t.startups)
    requires forall i :: 0 <= i < |s.startups| && s.startups[i].seen ==> s.startups[i].stage.Finished?
    ensures GatherOk(t)
  {
    hide Doomed, Culprit, Explained;
    forall x | Explained(s, x) ensures Explained(t, x) {
      ExplainedOnward(s, t, x);
    }
  }

  // ------------------------------------------------------------------- the whole state

  lemma StartupStepKeepsStartups(s: State, e: Event)
    requires StartupsOk(s) && OfStartup(e) && Enabled(s, e)
    ensures StartupsOk(Apply(s, e))
  {
    hide StartupOk, Moved, CanMove;
    MoveKeepsOk(s.startups[e.i], e, e.i in s.services, e.i in s.tasks);
  }

  /** A failed startup is to blame for its exception, except for a `CancelledError` once somebody has
      cancelled something. */
  lemma FailureIsBlamed(s: State, i: nat)
    requires Inv(s) && i < |s.startups| && s.startups[i].stage.Finished? && s.startups[i].stage.exc.Some?
    requires s.gather.Pending?
    ensures Explained(s, s.startups[i].stage.exc.value)
  {
    var exc := s.startups[i].stage.exc.value;
    assert StartupOk(s.startups[i], i in s.services, i in s.tasks);
    assert !s.disturbed ==> Untouched(s.startups[i]);
    assert Culprit(s.startups[i], exc) || (exc == CancelledError && s.disturbed);
  }

  lemma StartupStepIsOnward(s: State, e: Event)
    requires StartupsOk(s) && OfStartup(e) && Enabled(s, e)
    ensures AllOnward(s.startups, Apply(s, e).startups)
    ensures !e.Collect? ==> SameMarks(s.startups, Apply(s, e).startups)
  {
    hide Moved, CanMove, Onward;
    assert StartupOk(s.startups[e.i], e.i in s.services, e.i in s.tasks);
    MoveIsOnward(s.startups[e.i], e);
    hide StartupOk;
    OnwardReflexive(s.startups);
  }

  lemma OnwardReflexive(cs: seq<Startup>)
    ensures AllOnward(cs, cs)
  {
  }

  lemma CollectKeepsGather(s: State, i: nat)
    requires Inv(s) && Enabled(s, Collect(i))
    ensures GatherOk(Apply(s, Collect(i)))
  {
    var t := Apply(s, Collect(i));
    var exc := s.startups[i].stage.exc;
    StartupStepIsOnward(s, Collect(i));
    match s.gather {
      case FirstRaised(x) => ExplainedOnward(s, t, x);
      case AllReturned =>
      case Pending =>
        if exc.Some? {
          FailureIsBlamed(s, i);
          ExplainedOnward(s, t, exc.value);
        }
    }
  }

  lemma StartupStepKeepsQuiet(s: State, e: Event)
    requires StartupsOk(s) && QuietOk(s) && OfStartup(e) && Enabled(s, e)
    ensures QuietOk(Apply(s, e))
  {
    assert StartupOk(s.startups[e.i], e.i in s.services, e.i in s.tasks);
    if !s.disturbed && !Cancels(e) && s.group.Gathering? {
      MoveKeepsUntouched(s.startups[e.i], e);
    }
    hide Untouched, Moved, CanMove;
  }

  lemma StartupStepOk(s: State, e: Event)
    requires Inv(s) && OfStartup(e) && Enabled(s, e)
    ensures Inv(Apply(s, e))
  {
    StartupStepKeepsStartups(s, e);
    StartupStepIsOnward(s, e);
    StartupStepKeepsQuiet(s, e);
    GroupOnward(s, Apply(s, e));
    if e.Collect? {
      CollectKeepsGather(s, e.i);
    } else {
      GatherOnward(s, Apply(s, e));
    }
  }

  /** The group fails: every startup is cancelled, and those not finished will be joined. */
  lemma FailedOk(s: State, cause: Exc)
    requires Inv(s) && Explained(s, cause) && (s.disturbed || !s.gather.Pending?)
    ensures Inv(Failed(s, cause))
  {
    var t := Failed(s, cause);
    CancelAllOk(s, t);
    GatherOnward(s, t);
    ExplainedOnward(s, t, cause);
    hide Doomed, Culprit, Blamed, StartupOk, Untouched, CancelAll, Cancelled, Explained;
    forall i: nat | i < |t.startups| ensures i in t.group.joined || t.startups[i].stage.Finished? {
      assert t.startups[i].stage == s.startups[i].stage;
    }
  }

  lemma ForwardedOk(s: State, t: State)
    requires Inv(s) && s.group.Gathering? && s.gather.Pending?
    requires t == s.(startups := CancelAll(s.startups), cancelRequested := true, disturbed := true)
    ensures Inv(t)
  {
    CancelAllOk(s, t);
    GatherOnward(s, t);
  }

  lemma GroupStepOk(s: State, e: Event)
    requires Inv(s) && !OfStartup(e) && Enabled(s, e)
    ensures Inv(Apply(s, e))
  {
    var t := Apply(s, e);
    if e.GroupWake? && s.group.Gathering? && s.marked {
      FailedOk(s, CancelledError);
    } else if e.GroupWake? && s.group.Gathering? && s.gather.FirstRaised? {
      FailedOk(s, s.gather.exc);
    } else if e.CancelGroup? && s.group.Gathering? && s.gather.Pending? && Unfinished(s.startups) != {} {
      ForwardedOk(s, t);
    } else {
      assert forall x :: Explained(s, x) ==> Explained(t, x);
      hide Doomed, Culprit, Blamed, StartupOk, Untouched, Explained;
    }
  }

  lemma StepOk(s: State, e: Event)
    requires Inv(s) && Enabled(s, e)
    ensures Inv(Apply(s, e))
  {
    if OfStartup(e) {
      StartupStepOk(s, e);
    } else {
      GroupStepOk(s, e);
    }
  }

  // ---------------------------------------------------------------------- whole runs

  ghost predicate Runs(s: State, es: seq<Event>, t: State)
    decreases |es|
  {
    if es == [] then s == t
    else Enabled(s, es[0]) && Runs(Apply(s, es[0]), es[1..], t)
  }

  lemma {:induction false} RunKeepsInv(s: State, es: seq<Event>, t: State)
    requires Inv(s) && Runs(s, es, t)
    ensures Inv(t)
    decreases |es|
  {
    if es != [] {
      StepOk(s, es[0]);
      RunKeepsInv(Apply(s, es[0]), es[1..], t);
    }
  }

  lemma InitOk(n: nat)
    ensures Inv(Init(n))
  {
    var s := Init(n);
    if n != 0 {
      assert !s.startups[0].seen;
    }
  }

  lemma EveryRunKeepsInv(n: nat, es: seq<Event>, t: State)
    requires Runs(Init(n), es, t)
    ensures Inv(t)
  {
    InitOk(n);
    RunKeepsInv(Init(n), es, t);
  }

  /** The join: whatever was cancelled how often, and whoever failed, once POST_START receivers may run
      every startup task is finished, every readiness waiter that was created is done, and every start
      task is done or belongs to a service that got ready and was registered. */
  lemma JoinedAtPostStart(n: nat, es: seq<Event>, t: State, i: nat)
    requires Runs(Init(n), es, t) && (t.group.PostStart? || t.group.Over?) && i < |t.startups|
    ensures t.startups[i].stage.Finished?
    ensures !t.startups[i].ready.Running?
    ensures t.startups[i].start.Running? ==>
              i in t.tasks && t.startups[i].eventSet && t.startups[i].stage == Finished(None)
    ensures i in t.tasks ==> i in t.services
    ensures i in t.services <==> !t.startups[i].start.NotCreated?
  {
    EveryRunKeepsInv(n, es, t);
    assert StartupOk(t.startups[i], i in t.services, i in t.tasks);
  }

  /** What `start_services` raises in the end: an exception of a POST_START receiver replaces any other. */
  function Propagated(g: Group): Option<Exc>
    requires g.Over?
  {
    if g.receivers.Some? then g.receivers else g.exc
  }

  /** `start_services` returns only if every startup returned, and returns if they all did, nobody
      cancelled anything and no receiver raised.  The exception it propagates is a POST_START receiver's,
      or else that of a service of the group, or else a `CancelledError` after a cancellation. */
  lemma WhatPropagates(n: nat, es: seq<Event>, t: State)
    requires Runs(Init(n), es, t) && t.group.Over?
    ensures Propagated(t.group).None? ==> t.group.receivers.None? && AllReturnedOk(t.startups)
    ensures t.group.receivers.None? && AllReturnedOk(t.startups) && !t.disturbed ==> Propagated(t.group).None?
    ensures Propagated(t.group).Some? ==>
              || Propagated(t.group) == t.group.receivers
              || Blamed(t.startups, Propagated(t.group).value)
              || (Propagated(t.group) == Some(CancelledError) && t.disturbed)
    ensures t.group.exc.Some? ==> Explained(t, t.group.exc.value)
  {
    EveryRunKeepsInv(n, es, t);
  }

  // ------------------------------------------------------------ a failure is final

  /** `t` is later than `s`, whose `gather` is over: the same exception is on its way out, every startup
      only moved on, and no start task was registered since. */
  ghost predicate LaterFailed(s: State, t: State)
    requires !s.group.Gathering?
  {
    && t.tasks == s.tasks && AllOnward(s.startups, t.startups)
    && !t.group.Gathering? && Outgoing(t.group) == Outgoing(s.group)
    && (s.group.Over? ==> t.group == s.group)
  }

  function Outgoing(g: Group): Option<Exc>
    requires !g.Gathering?
  {
    if g.Cleaning? then Some(g.cause) else g.exc
  }

  lemma OnwardTransitive(cs: seq<Startup>, ds: seq<Startup>, es: seq<Startup>)
    requires AllOnward(cs, ds) && AllOnward(ds, es)
    ensures AllOnward(cs, es)
  {
    hide Doomed, Culprit;
    forall i | 0 <= i < |cs| ensures Onward(cs[i], es[i]) {
      assert Onward(cs[i], ds[i]) && Onward(ds[i], es[i]);
    }
  }

  lemma FailedStep(s: State, e: Event)
    requires Inv(s) && Enabled(s, e) && !s.group.Gathering?
    ensures LaterFailed(s, Apply(s, e))
  {
    if OfStartup(e) {
      StartupStepIsOnward(s, e);
      assert StartupOk(s.startups[e.i], e.i in s.services, e.i in s.tasks);
      MoveIsOnward(s.startups[e.i], e);
      assert Doomed(s.startups[e.i]);
      hide Moved, CanMove, StartupOk, Onward, AllOnward, Doomed;
    } else {
      assert Apply(s, e).startups == s.startups;
      assert AllOnward(s.startups, s.startups);
    }
  }

  /** Once the group has failed, further cancellations and failures change nothing: the exception that
      propagates is the one caught first, and nothing is registered any more. */
  lemma {:induction false} FailureIsFinal(s: State, es: seq<Event>, t: State)
    requires Inv(s) && !s.group.Gathering? && Runs(s, es, t)
    ensures LaterFailed(s, t)
    decreases |es|
  {
    if es != [] {
      var u := Apply(s, es[0]);
      StepOk(s, es[0]);
      FailedStep(s, es[0]);
      FailureIsFinal(u, es[1..], t);
      OnwardTransitive(s.startups, u.startups, t.startups);
    } else {
      assert AllOnward(s.startups, s.startups);
    }
  }

  lemma StepIsOnward(s: State, e: Event)
    requires Inv(s) && Enabled(s, e)
    ensures AllOnward(s.startups, Apply(s, e).startups)
  {
    var t := Apply(s, e);
    if OfStartup(e) {
      StartupStepIsOnward(s, e);
    } else if t.startups != s.startups {
      CancelAllOk(s, t);
    }
  }

  /** However often a startup task is cancelled while it joins the tasks it owns, it ends with the
      exception that made it give up. */
  lemma {:induction false} EveryRunIsOnward(s: State, es: seq<Event>, t: State)
    requires Inv(s) && Runs(s, es, t)
    ensures AllOnward(s.startups, t.startups)
    decreases |es|
  {
    if es != [] {
      var u := Apply(s, es[0]);
      StepOk(s, es[0]);
      StepIsOnward(s, es[0]);
      EveryRunIsOnward(u, es[1..], t);
      OnwardTransitive(s.startups, u.startups, t.startups);
    } else {
      assert AllOnward(s.startups, s.startups);
    }
  }

  // ------------------------------------------------------------------------ progress

  function Unit(b: bool): nat {
    if b then 1 else 0
  }

  function Rank(stage: Stage): nat {
    match stage
    case Created => 5
    case WaitingFirst => 4
    case AwaitingReady => 3
    case Joining(_, settled) => if settled then 1 else 2
    case Finished(_) => 0
  }

  /** How many steps, swallowed cancellations included, a startup may still make. */
  function Left(c: Startup): nat {
    Rank(c.stage) + Unit(c.marked) + Unit(!c.start.Done?) + Unit(!c.ready.Done?) + Unit(!c.eventSet) + Unit(!c.seen)
  }

  function LeftAll(cs: seq<Startup>): nat {
    Sum(Left, cs)
  }

  function LeftGroup(s: State): nat {
    Unit(s.marked) +
    match s.group
    case Gathering => |s.startups| + 4
    case Cleaning(_, _, settled) => if settled then 2 else 3
    case PostStart(_) => 1
    case Over(_, _) => 0
  }

  function Measure(s: State): nat {
    LeftAll(s.startups) + LeftGroup(s)
  }

  lemma {:induction false} LeftCancelled(cs: seq<Startup>)
    ensures LeftAll(cs) <= LeftAll(CancelAll(cs)) <= LeftAll(cs) + |cs|
  {
    if cs != [] {
      var n := |cs| - 1;
      assert CancelAll(cs)[..n] == CancelAll(cs[..n]);
      LeftCancelled(cs[..n]);
    }
  }

  lemma MoveDecreases(c: Startup, e: Event, listed: bool, kept: bool)
    requires OfStartup(e) && CanMove(c, e) && StartupOk(c, listed, kept)
    ensures !Cancels(e) ==> Left(Moved(c, e)) < Left(c)
    ensures Cancels(e) ==> Left(Moved(c, e)) <= Left(c) + 1
  {
  }

  lemma MeasureUpdate(s: State, t: State, i: nat, c: Startup)
    requires i < |s.startups| && t.startups == s.startups[i := c] && t.group == s.group && t.marked == s.marked
    ensures Measure(t) == Measure(s) - Left(s.startups[i]) + Left(c)
  {
    hide Left;
    SumUpdate(Left, s.startups, i, c);
  }

  lemma StartupStepDecreases(s: State, e: Event)
    requires StartupsOk(s) && OfStartup(e) && Enabled(s, e)
    ensures !Cancels(e) ==> Measure(Apply(s, e)) < Measure(s)
    ensures Cancels(e) ==> Measure(Apply(s, e)) <= Measure(s) + 1
  {
    var c, i := s.startups[e.i], e.i;
    assert StartupOk(c, i in s.services, i in s.tasks);
    MoveDecreases(c, e, i in s.services, i in s.tasks);
    hide Moved, CanMove, StartupOk, Left, Measure, Registers, Collected;
    MeasureUpdate(s, Apply(s, e), i, Moved(c, e));
  }

  /** Cancelling the whole group costs at most one wake-up per startup task. */
  lemma MeasureCancelled(s: State, t: State)
    requires t.startups == CancelAll(s.startups)
    ensures |t.startups| == |s.startups|
    ensures Measure(t) <= LeftAll(s.startups) + |s.startups| + LeftGroup(t)
  {
    LeftCancelled(s.startups);
  }

  lemma GroupStepDecreases(s: State, e: Event)
    requires !OfStartup(e) && Enabled(s, e)
    ensures !Cancels(e) ==> Measure(Apply(s, e)) < Measure(s)
    ensures Cancels(e) ==> Measure(Apply(s, e)) <= Measure(s) + |s.startups| + 1
  {
    var t := Apply(s, e);
    if t.startups != s.startups {
      MeasureCancelled(s, t);
    }
    hide LeftAll, CancelAll, Unfinished;
  }

  lemma StepDecreases(s: State, e: Event)
    requires Inv(s) && Enabled(s, e)
    ensures !Cancels(e) ==> Measure(Apply(s, e)) < Measure(s)
    ensures Cancels(e) ==> Measure(Apply(s, e)) <= Measure(s) + |s.startups| + 1
    ensures |Apply(s, e).startups| == |s.startups|
  {
    if OfStartup(e) {
      StartupStepDecreases(s, e);
    } else {
      GroupStepDecreases(s, e);
    }
  }

  function CountCancels(es: seq<Event>): nat {
    if es == [] then 0 else Unit(Cancels(es[0])) + CountCancels(es[1..])
  }

  function Weighted(n: nat, es: seq<Event>): nat {
    if es == [] then 0 else (if Cancels(es[0]) then n + 2 else 0) + Weighted(n, es[1..])
  }

  lemma {:induction false} WeightedIsProduct(n: nat, es: seq<Event>)
    ensures Weighted(n, es) == (n + 2) * CountCancels(es)
  {
    if es != [] {
      WeightedIsProduct(n, es[1..]);
    }
  }

  lemma {:induction false} ProgressIsBounded(s: State, es: seq<Event>, t: State)
    requires Inv(s) && Runs(s, es, t)
    ensures |es| <= Measure(s) + Weighted(|s.startups|, es)
    decreases |es|
  {
    if es != [] {
      StepOk(s, es[0]);
      StepDecreases(s, es[0]);
      hide Inv, Apply, Measure, Enabled;
      ProgressIsBounded(Apply(s, es[0]), es[1..], t);
    }
  }

  lemma {:induction false} InitMeasure(n: nat)
    ensures LeftAll(Init(n).startups) == 8 * n + n
  {
    if n != 0 {
      assert Init(n).startups[..n - 1] == Init(n - 1).startups;
      InitMeasure(n - 1);
    }
  }

  /** Every run is short: a startup of `n` services takes at most `10 n + 4` steps, and each outside
      cancellation adds itself and at most one swallowed wake-up per task. */
  lemma EveryRunIsShort(n: nat, es: seq<Event>, t: State)
    requires Runs(Init(n), es, t)
    ensures |es| <= 10 * n + 4 + (n + 2) * CountCancels(es)
  {
    InitOk(n);
    InitMeasure(n);
    ProgressIsBounded(Init(n), es, t);
    WeightedIsProduct(n, es);
  }

  /** The next step of a startup that is not finished, and whom it waits for. */
  lemma NextMove(s: State, i: nat) returns (e: Event)
    requires Inv(s) && i < |s.startups| && !s.startups[i].stage.Finished?
    ensures Enabled(s, e) && AwaitedOnly(s, e)
  {
    var c := s.startups[i];
    assert StartupOk(c, i in s.services, i in s.tasks);
    assert s.group.Cleaning? || (s.group.Gathering? && s.cancelRequested) ==> Doomed(c);
    match c.stage {
      case Created => e := FirstRun(i, None);
      case WaitingFirst => e := if CanWake(c) then Wake(i) else StartEnds(i, None);
      case AwaitingReady =>
        e := if c.ready.Done? then Wake(i) else if c.ready.asked || c.eventSet then ReadyEnds(i) else EventSet(i);
      case Joining(_, settled) =>
        e := if settled then Wake(i)
        else if c.start.Running? then StartEnds(i, None)
        else if c.ready.Running? then ReadyEnds(i) else Settle(i);
    }
  }

  /** The step is a cancellation of nobody; if it is a service's, it is one the protocol may wait for:
      the end of an unregistered start task, which after a failure has been cancelled, or the event that
      `_start_service` itself has scheduled to be set. */
  ghost predicate AwaitedOnly(s: State, e: Event) {
    && !Cancels(e)
    && (e.StartEnds? ==>
          && e.i < |s.startups| && e.i !in s.tasks
          && (s.group.Cleaning? || (s.group.Gathering? && s.cancelRequested) ==>
                s.startups[e.i].start == Running(true)))
    && (e.EventSet? ==> e.i < |s.startups| && s.startups[e.i].stage.AwaitingReady?)
  }

  /** Until `start_services` is over some step is always possible, and it never waits for a registered
      service or for a start task that nobody has asked to stop after a failure. */
  lemma NobodyIsStuck(s: State)
    requires Inv(s) && !s.group.Over?
    ensures exists e :: Enabled(s, e) && AwaitedOnly(s, e)
  {
    if i: nat :| i < |s.startups| && !s.startups[i].stage.Finished? && !s.group.PostStart? {
      var e := NextMove(s, i);
    } else {
      var e := PostStartEnds(None);
      if s.group.Cleaning? {
        e := if s.group.settled then GroupWake else GroupSettle;
      } else if s.group.Gathering? {
        e := GroupWake;
        if s.gather.Pending? {
          var i: nat :| i < |s.startups| && !s.startups[i].seen;
          e := Collect(i);
        }
      }
      assert Enabled(s, e) && AwaitedOnly(s, e);
    }
  }

  /** From every reachable state, however many cancellations led there, `start_services` can come to its
      end without another one: there is a run of awaited steps to it. */
  lemma {:induction false} StartupCanEnd(s: State) returns (es: seq<Event>, t: State)
    requires Inv(s)
    ensures Runs(s, es, t) && t.group.Over?
    ensures forall i :: 0 <= i < |es| ==> !Cancels(es[i])
    decreases Measure(s)
  {
    es, t := [], s;
    if !s.group.Over? {
      NobodyIsStuck(s);
      var e :| Enabled(s, e) && AwaitedOnly(s, e);
      StepOk(s, e);
      StepDecreases(s, e);
      hide Inv, Apply, Measure, Enabled;
      var rest;
      rest, t := StartupCanEnd(Apply(s, e));
      es := [e] + rest;
      assert es[1..] == rest;
    }
  }
}
