/**
 `Entrypoint` of `aiomisc/entrypoint.py`: each method is one atomic section of `_start_service` or
 `start_services`, or of the `gather` they await, proved to be the step of `EntrypointProtocol` it
 stands for.
 */
module Entrypoints {
  import opened Basics
  import opened EntrypointProtocol
  import Proofs = EntrypointProofs

  class Entrypoint {
    var services: set<nat>
    var tasks: set<nat>
    var startups: seq<Startup>
    var group: Group
    var marked: bool
    var gather: Gather
    var cancelRequested: bool
    ghost var disturbed: bool

    ghost function View(): State
      reads this
    {
      State(startups, services, tasks, group, marked, gather, cancelRequested, disturbed)
    }

    ghost predicate Valid()
      reads this
    {
      Inv(View())
    }

    /** `start_services` after PRE_START: one startup task per service, nothing of it has run. */
    constructor (n: nat)
      ensures Valid() && View() == Init(n)
    {
      services, tasks := {}, {};
      startups := seq(n, _ => Startup(Created, false, NotCreated, NotCreated, false, false, false, false));
      group := if n == 0 then PostStart(None) else Gathering;
      marked, gather, cancelRequested, disturbed := false, Pending, false, false;
      new;
      Proofs.InitOk(n);
    }

    /** `_start_service` up to `asyncio.wait`. */
    method BeginService(i: nat, early: Option<Exc>)
      requires Valid() && Enabled(View(), FirstRun(i, early))
      modifies this`startups, this`services
      ensures Valid() && View() == Apply(old(View()), FirstRun(i, early))
      ensures |startups| == old(|startups|)
      ensures old(startups[i]).marked ==> startups[i].stage == Finished(Some(CancelledError))
      ensures !old(startups[i]).marked && early.Some? ==> startups[i].stage == Finished(early)
      ensures !old(startups[i]).marked && early.None? ==>
                && startups[i].stage.WaitingFirst? && i in services
                && startups[i].start == Running(false) && startups[i].ready == Running(false)
    {
      hide Inv;
      Proofs.StepOk(View(), FirstRun(i, early));
      var c := startups[i];
      if c.marked {
        c := c.(stage := Finished(Some(CancelledError)), marked := false);
      } else if early.Some? {
        c := c.(stage := Finished(early), early := true);
      } else {
        c := c.(start := Running(false), ready := Running(false), stage := WaitingFirst);
        services := services + {i};
      }
      startups := startups[i := c];
    }

    /** The `except` branch of `_start_service` up to its first suspension. */
    method Abandon(i: nat, cause: Exc)
      requires i < |startups|
      modifies this`startups
      ensures startups == old(startups)[i := Abandoned(old(startups[i]), cause)]
    {
      var c := startups[i].(stopped := startups[i].start.Running?);
      if c.start.Running? {
        c := c.(start := Running(true));
      }
      if c.ready.Running? {
        c := c.(ready := Running(true));
      }
      startups := startups[i := c.(stage := Joining(cause, false), marked := false)];
    }

    /** `_start_service` goes on, wherever it was suspended. */
    method ServiceWakes(i: nat)
      requires Valid() && Enabled(View(), Wake(i))
      modifies this`startups, this`tasks
      ensures Valid() && View() == Apply(old(View()), Wake(i)) && |startups| == old(|startups|)
      ensures old(startups[i]).stage.Joining? ==>
                startups[i].stage == if old(startups[i]).stage.settled
                                     then Finished(Some(old(startups[i]).stage.cause)) else old(startups[i]).stage
      ensures !old(startups[i]).stage.Joining? && old(startups[i]).marked ==>
                startups[i].stage == Joining(CancelledError, false)
      ensures !old(startups[i]).stage.Joining? && !old(startups[i]).marked && old(startups[i]).ready == Done(None) ==>
                match old(startups[i]).start
                case Done(Some(exc)) => startups[i].stage == Joining(exc, false)
                case Done(None) => startups[i].stage == Finished(None) && tasks == old(tasks)
                case _ => startups[i].stage == Finished(None) && tasks == old(tasks) + {i}
    {
      hide Inv, Woken, Registers;
      Proofs.StepOk(View(), Wake(i));
      Proofs.WokenMeans(startups[i]);
      Continue(i);
    }

    /** The code of `_start_service` from where it was suspended to its next suspension or its end. */
    method Continue(i: nat)
      requires i < |startups| && CanWake(startups[i])
      modifies this`startups, this`tasks
      ensures startups == old(startups)[i := Woken(old(startups[i]))]
      ensures tasks == if Registers(old(startups[i])) then old(tasks) + {i} else old(tasks)
    {
      var c := startups[i];
      if c.stage.Joining? {
        if c.stage.settled {
          c := c.(stage := Finished(Some(c.stage.cause)));
        }
        startups := startups[i := c.(marked := false)];
      } else if c.marked {
        Abandon(i, CancelledError);
      } else if !c.ready.Done? {
        startups := startups[i := c.(stage := AwaitingReady)];
      } else if c.ready.exc.Some? {
        Abandon(i, c.ready.exc.value);
      } else if c.start.Done? && c.start.exc.Some? {
        Abandon(i, c.start.exc.value);
      } else {
        startups := startups[i := c.(stage := Finished(None))];
        if !c.start.Done? {
          tasks := tasks + {i};
        }
      }
    }

    /** `task.cancel()` of one startup task. */
    method CancelOne(i: nat)
      requires i < |startups|
      modifies this`startups
      ensures startups == old(startups)[i := Cancelled(old(startups[i]))]
    {
      var c := startups[i];
      if c.stage.AwaitingReady? && c.ready.Running? {
        startups := startups[i := c.(ready := Running(true))];
      } else if !c.stage.Finished? {
        startups := startups[i := c.(marked := true)];
      }
    }

    /** `cancel_tasks(tasks)`: every unfinished startup task is cancelled, and those are to be joined. */
    method CancelTasks() returns (joined: set<nat>)
      modifies this`startups
      ensures startups == CancelAll(old(startups)) && joined == Unfinished(old(startups))
    {
      ghost var was := startups;
      assert forall c: Startup :: c.stage.Finished? ==> Cancelled(c) == c;
      hide Cancelled;
      joined := {};
      var k := 0;
      while k < |startups|
        invariant k <= |startups| == |was|
        invariant forall i :: 0 <= i < |was| ==> startups[i] == if i < k then Cancelled(was[i]) else was[i]
        invariant forall i: nat :: i in joined <==> i < k && !was[i].stage.Finished?
      {
        if !startups[k].stage.Finished? {
          CancelOne(k);
          joined := joined + {k};
        }
        k := k + 1;
      }
    }

    /** `start_services` goes on after `gather`, or inside the loop that joins a failed group. */
    method GroupWakes()
      requires Valid() && Enabled(View(), GroupWake)
      modifies this`startups, this`group, this`marked
      ensures Valid() && View() == Apply(old(View()), GroupWake)
    {
      hide Inv;
      Proofs.StepOk(View(), GroupWake);
      if group.Cleaning? {
        if group.settled {
          group := PostStart(Some(group.cause));
        }
        marked := false;
      } else if marked || gather.FirstRaised? {
        var cause := if marked then CancelledError else gather.exc;
        var joined := CancelTasks();
        group := Cleaning(cause, joined, joined == {});
        marked := false;
      } else {
        group := PostStart(None);
      }
    }

    /** The task that runs `start_services` is cancelled. */
    method CancelStartServices()
      requires Valid() && !group.Over?
      modifies this`startups, this`cancelRequested, this`marked, this`disturbed
      ensures Valid() && View() == Apply(old(View()), CancelGroup)
    {
      hide Inv;
      Proofs.StepOk(View(), CancelGroup);
      disturbed := true;
      if group.Gathering? && gather.Pending? && exists i: nat :: i < |startups| && !startups[i].stage.Finished? {
        assert Unfinished(startups) != {} by {
          var i: nat :| i < |startups| && !startups[i].stage.Finished?;
          assert i in Unfinished(startups);
        }
        var joined := CancelTasks();
        cancelRequested := true;
      } else {
        marked := true;
      }
    }
  }
}
