/**
 The atomic sections of `WorkerPool.create_task` and `WorkerPool.__handle_client` after
 authentication (`aiomisc/worker_pool.py`), and of `execute` (`aiomisc_worker/worker.py`).

 A task has two futures.  `process_future` gets the worker's pid when the request is sent and is
 cancelled with a caller that still waits for that; `result_future` gets the reply.  The protocol's
 one fate per task and its set of started tasks are read off the two.
 */
module WorkerPools {
  import opened Basics
  import opened WorkerProtocol
  import Proofs = WorkerProofs

  datatype ProcessFuture = Unset | Pid(conn: nat) | ProcessCancelled

  /** How the call of the function in `execute` ended. */
  datatype Ending = Returned | Raised | Interrupted | ConnectionFailed

  function FateOf(process: ProcessFuture, result: Option<Fate>): Fate {
    if result.Some? then result.value else if process.ProcessCancelled? then CallerCancelled else Pending
  }

  function FatesOf(process: seq<ProcessFuture>, result: seq<Option<Fate>>): (r: seq<Fate>)
    requires |process| == |result|
    ensures |r| == |result| && forall t :: 0 <= t < |r| ==> r[t] == FateOf(process[t], result[t])
  {
    seq(|result|, t requires 0 <= t < |result| => FateOf(process[t], result[t]))
  }

  function StartedOf(process: seq<ProcessFuture>): set<nat> {
    set t: nat | t < |process| && process[t].Pid?
  }

  /** A result is never the pending fate. */
  predicate Settled(result: seq<Option<Fate>>) {
    forall t :: 0 <= t < |result| && result[t].Some? ==> !result[t].value.Pending?
  }

  /** Only tasks with a pid get a result, so setting one changes that one fate, if it was pending. */
  lemma ResultSet(process: seq<ProcessFuture>, result: seq<Option<Fate>>, t: nat, fate: Fate)
    requires |process| == |result| && t < |result| && Settled(result) && process[t].Pid?
    ensures FatesOf(process, if result[t].Some? then result else result[t := Some(fate)])
            == Resolve(FatesOf(process, result), t, fate)
  {
  }

  lemma PidSet(process: seq<ProcessFuture>, result: seq<Option<Fate>>, t: nat, c: nat)
    requires |process| == |result| && t < |result| && process[t].Unset?
    ensures FatesOf(process[t := Pid(c)], result) == FatesOf(process, result)
    ensures StartedOf(process[t := Pid(c)]) == StartedOf(process) + {t}
  {
  }

  class WorkerPool {
    const maxOverflow: nat
    var putting: set<nat>
    var tasks: seq<nat>
    var process: seq<ProcessFuture>
    var result: seq<Option<Fate>>
    var conns: seq<Conn>
    ghost var abandoned: set<nat>

    ghost function View(): State
      requires |process| == |result|
      reads this
    {
      State(maxOverflow, putting, tasks, StartedOf(process), FatesOf(process, result), conns, abandoned)
    }

    ghost predicate Valid()
      reads this
    {
      |process| == |result| && Settled(result) && Inv(View())
    }

    constructor (maxOverflow: nat, connections: nat)
      ensures Valid() && View() == Init(maxOverflow, connections)
    {
      this.maxOverflow := maxOverflow;
      putting, tasks, process, result, abandoned := {}, [], [], [], {};
      conns := seq(connections, _ => Conn(Idle, Receiving, [], []));
      new;
      Proofs.InitOk(maxOverflow, connections);
      assert View() == Init(maxOverflow, connections);
    }

    /** `create_task` up to its first suspension: two futures, and an entry of the queue exactly if there
        is room for it; else the caller waits for room. */
    method AddTask() returns (task: nat, queued: bool)
      requires Valid()
      modifies this`putting, this`tasks, this`process, this`result
      ensures Valid() && task == old(|result|) && (queued <==> HasRoom(maxOverflow, old(tasks)))
      ensures !queued ==> View() == Apply(old(View()), CreateTask)
      ensures queued ==> View() == Apply(Apply(old(View()), CreateTask), PutTask(task))
      ensures tasks == if queued then old(tasks) + [task] else old(tasks)
      ensures process == old(process) + [Unset] && result == old(result) + [None]
    {
      ghost var s := View();
      Proofs.StepOkIff(s, CreateTask);
      ghost var s1 := Apply(s, CreateTask);
      task := |result|;
      result, process := result + [None], process + [Unset];
      assert FatesOf(process, result) == s.fates + [Pending] && StartedOf(process) == s.started;
      queued := HasRoom(maxOverflow, tasks);
      if queued {
        Proofs.StepOkIff(s1, PutTask(task));
        tasks := tasks + [task];
        assert putting == s1.putting - {task};
      } else {
        putting := putting + {task};
      }
    }

    /** The caller is cancelled.  Waiting for a pid it cancels `process_future`, and the handler will skip
        the task; waiting for the reply it cancels `result_future`, and the worker gets a signal. */
    method CancelTask(task: nat) returns (signalled: bool)
      requires Valid() && Enabled(View(), CancelCaller(task))
      modifies this`process, this`result
      ensures Valid() && View() == Apply(old(View()), CancelCaller(task))
      ensures signalled <==> task in old(View()).started
      ensures task < |process| == |result|
      ensures signalled ==> result[task] == Some(CallerCancelled) && process == old(process)
      ensures !signalled ==> process[task].ProcessCancelled? && result == old(result)
    {
      Proofs.StepOkIff(View(), CancelCaller(task));
      signalled := process[task].Pid?;
      if signalled {
        ResultSet(process, result, task, CallerCancelled);
        result := result[task := Some(CallerCancelled)];
      } else {
        process := process[task := ProcessCancelled];
        assert StartedOf(process) == StartedOf(old(process));
        assert FatesOf(process, result) == Resolve(FatesOf(old(process), result), task, CallerCancelled);
      }
      assert View() == Apply(old(View()), CancelCaller(task));
    }

    /** The head of the handler's loop: a task with a future that is done is skipped, any other is sent;
        then it is the only request on its connection, and no other handler waits for it. */
    method NextTask(c: nat) returns (sent: bool)
      requires Valid() && Enabled(View(), Dequeue(c))
      modifies this`tasks, this`process, this`conns
      ensures Valid() && View() == Apply(old(View()), Dequeue(c))
      ensures sent <==> old(process[tasks[0]]).Unset? && old(result[tasks[0]]).None?
      ensures sent ==> conns[c].handler == Awaiting(old(tasks[0])) && conns[c].up == []
      ensures sent ==> forall d :: 0 <= d < |conns| && d != c ==> conns[d].handler != Awaiting(old(tasks[0]))
    {
      hide ConnsOk, Answerable, Routed;
      ghost var s := View();
      Proofs.StepOkIff(s, Dequeue(c));
      Proofs.ServedInOrder(s, c);
      var task := tasks[0];
      tasks := tasks[1..];
      sent := process[task].Unset? && result[task].None?;
      if sent {
        PidSet(process, result, task, c);
        process := process[task := Pid(c)];
        conns := conns[c := conns[c].(handler := Awaiting(task), down := conns[c].down + [task])];
      }
      assert View() == Apply(s, Dequeue(c));
    }

    /** A handler's task was sent. */
    lemma AwaitedHasPid(c: nat)
      requires Valid() && c < |conns| && conns[c].handler.Awaiting?
      ensures conns[c].handler.task < |process| && process[conns[c].handler.task].Pid?
    {
      assert conns[c].handler.task in StartedOf(process);
    }

    /** The reply is there: it belongs to the task that was sent, and becomes its result unless that is
        set already; then the next task is served. */
    method ReplyReceived(c: nat)
      requires Valid() && Enabled(View(), HandlerReceive(c))
      modifies this`result, this`conns
      ensures Valid() && View() == Apply(old(View()), HandlerReceive(c))
      ensures var task, reply := old(conns[c].handler.task), old(conns[c].up[0]);
              && task < |result| == |old(result)| && reply.task == task
              && result[task] == if old(result)[task].Some? then old(result)[task] else Some(Answered(reply))
      ensures conns[c].handler.Idle? && conns[c].up == []
    {
      hide Inv, FatesOf, StartedOf;
      ghost var s := View();
      Proofs.StepOkIff(s, HandlerReceive(c));
      AwaitedHasPid(c);
      Proofs.ServedInOrder(s, c);
      var conn := conns[c];
      var task := conn.handler.task;
      ResultSet(process, result, task, Answered(conn.up[0]));
      if result[task].None? {
        result := result[task := Some(Answered(conn.up[0]))];
      }
      conns := conns[c := conn.(handler := Idle, up := conn.up[1..])];
    }

    /** The handler ends without a reply: the task it sent gets `fate` unless its result is set. */
    method GiveUp(c: nat, fate: Fate)
      requires Valid() && c < |conns| && conns[c].handler.Awaiting? && !fate.Pending?
      modifies this`result, this`conns
      ensures |result| == |old(result)| && Settled(result)
      ensures FatesOf(process, result) == Resolve(FatesOf(process, old(result)), old(conns[c].handler.task), fate)
      ensures conns == old(conns)[c := old(conns[c]).(handler := Gone)]
      ensures var task := old(conns[c].handler.task);
              && task < |result| == |old(result)|
              && result[task] == if old(result)[task].Some? then old(result)[task] else Some(fate)
    {
      hide Inv, FatesOf;
      AwaitedHasPid(c);
      var task := conns[c].handler.task;
      ResultSet(process, result, task, fate);
      if result[task].None? {
        result := result[task := Some(fate)];
      }
      conns := conns[c := conns[c].(handler := Gone)];
    }

    /** The connection is gone: the task that was sent has a result, ProcessError if it had none, and the
        handler ends. */
    method ConnectionLost(c: nat)
      requires Valid() && Enabled(View(), HandlerEof(c))
      modifies this`result, this`conns
      ensures Valid() && View() == Apply(old(View()), HandlerEof(c)) && conns[c].handler.Gone?
      ensures var task := old(conns[c].handler.task);
              && task < |result| == |old(result)|
              && result[task] == if old(result)[task].Some? then old(result)[task] else Some(ProcessError)
    {
      hide Inv, FatesOf;
      Proofs.StepOkIff(View(), HandlerEof(c));
      GiveUp(c, ProcessError);
    }

    /** Sending or receiving raised something else, such as a payload that cannot be pickled: the task
        has a result, that exception if it had none, and the handler ends. */
    method HandlingFailed(c: nat)
      requires Valid() && Enabled(View(), HandlerRaised(c))
      modifies this`result, this`conns
      ensures Valid() && View() == Apply(old(View()), HandlerRaised(c)) && conns[c].handler.Gone?
      ensures var task := old(conns[c].handler.task);
              && task < |result| == |old(result)|
              && result[task] == if old(result)[task].Some? then old(result)[task] else Some(HandlerError)
    {
      hide Inv, FatesOf;
      Proofs.StepOkIff(View(), HandlerRaised(c));
      GiveUp(c, HandlerError);
    }

    // ---------------------------------------------------------------------- the worker

    /** `execute` receives a request: it is the one its handler waits for, if anybody does. */
    method ReceiveRequest(c: nat) returns (task: nat)
      requires Valid() && Enabled(View(), WorkerReceive(c))
      modifies this`conns
      ensures Valid() && View() == Apply(old(View()), WorkerReceive(c)) && conns[c].worker == Executing(task)
      ensures !conns[c].handler.Gone? ==> conns[c].handler == Awaiting(task) && conns[c].up == []
    {
      hide Inv, FatesOf;
      ghost var s := View();
      Proofs.StepOkIff(s, WorkerReceive(c));
      Proofs.ServedInOrder(s, c);
      task := conns[c].down[0];
      conns := conns[c := conns[c].(worker := Executing(task), down := conns[c].down[1..])];
    }

    /** The function has ended: exactly one reply of the right kind is sent, or none if the function or the
        sending failed with ConnectionError, and then the worker is gone. */
    method SendReply(c: nat, ending: Ending)
      requires Valid() && c < |conns| && conns[c].worker.Executing?
      modifies this`conns
      ensures Valid()
      ensures ending.ConnectionFailed? ==>
                View() == Apply(old(View()), WorkerDies(c)) && conns[c].up == old(conns[c].up)
      ensures !ending.ConnectionFailed? ==>
                var kind := if ending.Returned? then Result else if ending.Raised? then Exception else Cancelled;
                && View() == Apply(old(View()), WorkerReply(c, kind))
                && conns[c].up == old(conns[c].up) + [Reply(old(conns[c].worker.task), kind)]
      ensures !ending.ConnectionFailed? && !conns[c].handler.Gone? ==>
                |conns[c].up| == 1 && conns[c].handler == Awaiting(conns[c].up[0].task)
    {
      hide Inv, FatesOf;
      ghost var s := View();
      var task := conns[c].worker.task;
      var kind := if ending.Returned? then Result else if ending.Raised? then Exception else Cancelled;
      Proofs.StepOkIff(s, if ending.ConnectionFailed? then WorkerDies(c) else WorkerReply(c, kind));
      Proofs.ServedInOrder(s, c);
      if ending.ConnectionFailed? {
        conns := conns[c := conns[c].(worker := Dead)];
      } else {
        conns := conns[c := conns[c].(worker := Replied(task), up := conns[c].up + [Reply(task, kind)])];
      }
    }
  }
}
