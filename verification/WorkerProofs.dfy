/** Reply routing between handlers and workers, over every run. */
module WorkerProofs {
  import opened WorkerProtocol

  lemma InitOk(maxQueue: nat, connections: nat)
    ensures Inv(Init(maxQueue, connections))
  {
  }

  predicate OfConn(e: Event) {
    !e.CreateTask? && !e.PutTask? && !e.CancelPut? && !e.CancelCaller?
  }

  /** A step on one connection keeps that connection in order, unless it is a late signal that
      somebody may still read. */
  lemma StepConn(s: State, e: Event)
    requires Shaped(s) && ConnsOk(s) && Enabled(s, e) && OfConn(e)
    ensures |Apply(s, e).conns| == |s.conns|
    ensures Apply(s, e).conns == s.conns[e.conn := Apply(s, e).conns[e.conn]]
    ensures ConnOk(Apply(s, e).conns[e.conn]) <==> !e.LateSignal? || s.conns[e.conn].handler.Gone?
  {
    assert ConnOk(s.conns[e.conn]);
  }

  lemma StepConns(s: State, e: Event)
    requires Shaped(s) && ConnsOk(s) && Enabled(s, e)
    ensures ConnsOk(Apply(s, e)) <==> !e.LateSignal? || s.conns[e.conn].handler.Gone?
  {
    if OfConn(e) {
      hide ConnOk;
      StepConn(s, e);
      var s' := Apply(s, e);
      forall c | 0 <= c < |s'.conns| && c != e.conn
        ensures ConnOk(s'.conns[c])
      {
        assert s'.conns[c] == s.conns[c];
      }
    }
  }

  lemma StepRouted(s: State, e: Event)
    requires Shaped(s) && ConnsOk(s) && Routed(s) && Enabled(s, e)
    ensures Routed(Apply(s, e))
  {
    if e.HandlerReceive? {
      assert ConnOk(s.conns[e.conn]);
    }
  }

  lemma StepShaped(s: State, e: Event)
    requires Shaped(s) && Enabled(s, e)
    ensures Shaped(Apply(s, e))
  {
  }

  lemma AwaitedElsewhere(s: State, c: nat, conn: Conn, t: nat)
    requires c < |s.conns| && Awaited(s.conns, t)
    ensures s.conns[c].handler != Awaiting(t) || conn.handler == Awaiting(t) ==> Awaited(s.conns[c := conn], t)
  {
    var d :| 0 <= d < |s.conns| && s.conns[d].handler == Awaiting(t);
    assert d != c ==> s.conns[c := conn][d].handler == Awaiting(t);
    assert s.conns[c := conn][c].handler == conn.handler;
  }

  lemma StepAnswerable(s: State, e: Event)
    requires Shaped(s) && Answerable(s) && SentOnce(s) && Enabled(s, e)
    ensures Answerable(Apply(s, e))
  {
    var s' := Apply(s, e);
    forall t | t in s'.started
      ensures t < |s'.fates| && (!s'.fates[t].Pending? || Awaited(s'.conns, t) || t in s'.abandoned)
    {
      if t in s.started {
        if OfConn(e) && Awaited(s.conns, t) {
          assert s'.conns == s.conns[e.conn := s'.conns[e.conn]];
          AwaitedElsewhere(s, e.conn, s'.conns[e.conn], t);
        }
      } else {
        assert s'.conns[e.conn].handler == Awaiting(t);
      }
    }
  }

  /** A handler that does not take up a task keeps the tasks apart. */
  lemma MoveSentOnce(s: State, c: nat, conn: Conn, u: State)
    requires SentOnce(s) && c < |s.conns| && u.conns == s.conns[c := conn] && u.started == s.started
    requires conn.handler.Awaiting? ==> conn.handler == s.conns[c].handler
    ensures SentOnce(u)
  {
  }

  lemma DequeueSentOnce(s: State, c: nat)
    requires Shaped(s) && SentOnce(s) && Enabled(s, Dequeue(c))
    ensures SentOnce(Dequeued(s, c))
  {
  }

  lemma StepSentOnce(s: State, e: Event)
    requires Shaped(s) && SentOnce(s) && Enabled(s, e)
    ensures SentOnce(Apply(s, e))
  {
    if e.Dequeue? {
      DequeueSentOnce(s, e.conn);
    } else if OfConn(e) {
      MoveSentOnce(s, e.conn, Apply(s, e).conns[e.conn], Apply(s, e));
    }
    hide SentOnce, Shaped, Dequeued;
  }

  /** From an ordered state, a step leads to an ordered state exactly if it is not a cancel signal
      that lands after the reply was sent while the handler still serves the connection. */
  lemma StepOkIff(s: State, e: Event)
    requires Inv(s) && Enabled(s, e)
    ensures Inv(Apply(s, e)) <==> !e.LateSignal? || s.conns[e.conn].handler.Gone?
  {
    hide ConnsOk, Answerable, SentOnce;
    StepShaped(s, e);
    StepConns(s, e);
    StepRouted(s, e);
    StepAnswerable(s, e);
    StepSentOnce(s, e);
  }

  lemma ServedInOrder(s: State, c: nat)
    requires Inv(s) && c < |s.conns|
    ensures Shaped(s) && ConnOk(s.conns[c])
  {
  }

  // ------------------------------------------------------------------ whole runs

  ghost predicate IsRun(s: State, es: seq<Event>)
    decreases |es|
  {
    Shaped(s) && (es != [] ==> Enabled(s, es[0]) && IsRun(Apply(s, es[0]), es[1..]))
  }

  ghost function After(s: State, es: seq<Event>): State
    requires IsRun(s, es)
    decreases |es|
  {
    if es == [] then s else After(Apply(s, es[0]), es[1..])
  }

  /** No late signal reaches a worker whose connection is still served. */
  ghost predicate Punctual(s: State, es: seq<Event>)
    requires IsRun(s, es)
    decreases |es|
  {
    es != [] ==>
      && (es[0].LateSignal? ==> s.conns[es[0].conn].handler.Gone?)
      && Punctual(Apply(s, es[0]), es[1..])
  }

  /** The invariant holds at every state of the run. */
  ghost predicate AlwaysOrdered(s: State, es: seq<Event>)
    requires IsRun(s, es)
    decreases |es|
  {
    Inv(s) && (es != [] ==> AlwaysOrdered(Apply(s, es[0]), es[1..]))
  }

  /** Over every run: one outstanding request per connection, each reply resolves the future of its own
      task, and each task sent is answered before its handler takes another unless the handler is
      cancelled, at every state, exactly if no late signal hits a connection that is still served. */
  lemma {:induction false} OrderedIffPunctual(s: State, es: seq<Event>)
    requires Inv(s) && IsRun(s, es)
    ensures AlwaysOrdered(s, es) <==> Punctual(s, es)
    decreases |es|
  {
    if es != [] {
      StepOkIff(s, es[0]);
      if Inv(Apply(s, es[0])) {
        OrderedIffPunctual(Apply(s, es[0]), es[1..]);
      }
    }
  }

  lemma {:induction false} EveryRunKeepsInv(s: State, es: seq<Event>)
    requires Inv(s) && IsRun(s, es) && Punctual(s, es)
    ensures Inv(After(s, es))
    decreases |es|
  {
    if es != [] {
      StepOkIff(s, es[0]);
      EveryRunKeepsInv(Apply(s, es[0]), es[1..]);
    }
  }

  /** Over every run whose late signals hit only connections that nobody serves: a task that was sent and
      is awaited by no handler any more is resolved, by its own reply if by any, unless its handler was
      cancelled. */
  lemma SentMeansResolved(maxQueue: nat, connections: nat, s: State, es: seq<Event>, t: nat)
    requires s == Init(maxQueue, connections) && IsRun(s, es) && Punctual(s, es)
    requires t in After(s, es).started && t !in After(s, es).abandoned && !Awaited(After(s, es).conns, t)
    ensures var u := After(s, es);
            t < |u.fates| && !u.fates[t].Pending? && (u.fates[t].Answered? ==> u.fates[t].reply.task == t)
  {
    InitOk(maxQueue, connections);
    EveryRunKeepsInv(s, es);
  }

  /** One late signal is enough: wherever a worker has just replied and another task is queued, the
      next task of that connection gets a reply that belongs to the previous one. */
  lemma LateSignalMisroutes(s: State, c: nat) returns (es: seq<Event>)
    requires Inv(s) && c < |s.conns| && s.conns[c].handler.Awaiting?
    requires s.conns[c].worker == Replied(s.conns[c].handler.task) && s.conns[c].up != []
    requires s.queue != [] && s.queue[0] !in s.started && s.fates[s.queue[0]].Pending?
    ensures IsRun(s, es) && s.queue[0] < |After(s, es).fates| == |s.fates| && s.conns[c].handler.task != s.queue[0]
    ensures After(s, es).fates[s.queue[0]] == Answered(Reply(s.conns[c].handler.task, Cancelled))
  {
    assert s.conns[c].handler.task in s.started;
    hide Inv;
    ServedInOrder(s, c);
    var s1 := Apply(s, LateSignal(c));
    var s2 := Apply(s1, HandlerReceive(c));
    assert s2.conns[c].up == [Reply(s.conns[c].handler.task, Cancelled)];
    var s3 := Apply(s2, Dequeue(c));
    var s4 := Apply(s3, HandlerReceive(c));
    es := [];
    assert IsRun(s4, es) && After(s4, es) == s4;
    hide IsRun, After;
    es := Before(s3, HandlerReceive(c), es);
    es := Before(s2, Dequeue(c), es);
    es := Before(s1, HandlerReceive(c), es);
    es := Before(s, LateSignal(c), es);
  }

  /** Any idle connection with two fresh tasks in the queue gets there by serving the first. */
  lemma IdleConnectionCanMisroute(s: State, c: nat) returns (es: seq<Event>)
    requires Inv(s) && c < |s.conns| && s.conns[c] == Conn(Idle, Receiving, [], [])
    requires 2 <= |s.queue| && s.queue[0] != s.queue[1]
    requires s.queue[0] !in s.started && s.fates[s.queue[0]].Pending?
    requires s.queue[1] !in s.started && s.fates[s.queue[1]].Pending?
    ensures IsRun(s, es) && s.queue[1] < |After(s, es).fates|
    ensures After(s, es).fates[s.queue[1]] == Answered(Reply(s.queue[0], Cancelled))
  {
    var t := s.queue[0];
    StepOkIff(s, Dequeue(c));
    var s1 := Apply(s, Dequeue(c));
    assert s1.conns[c] == Conn(Awaiting(t), Receiving, [t], []);
    StepOkIff(s1, WorkerReceive(c));
    var s2 := Apply(s1, WorkerReceive(c));
    StepOkIff(s2, WorkerReply(c, Result));
    var s3 := Apply(s2, WorkerReply(c, Result));
    hide Inv, IsRun, After;
    es := LateSignalMisroutes(s3, c);
    es := Before(s2, WorkerReply(c, Result), es);
    es := Before(s1, WorkerReceive(c), es);
    es := Before(s, Dequeue(c), es);
  }

  lemma Before(s: State, e: Event, es: seq<Event>) returns (longer: seq<Event>)
    requires Shaped(s) && Enabled(s, e) && IsRun(Apply(s, e), es)
    ensures IsRun(s, longer) && After(s, longer) == After(Apply(s, e), es)
  {
    longer := [e] + es;
    assert longer[1..] == es;
  }

  /** From the start, for every size of the queue and every number of connections: two tasks, one late
      signal, and the second task gets the reply of the first. */
  lemma MisroutesFromTheStart(maxQueue: nat, connections: nat) returns (es: seq<Event>)
    requires 0 < connections
    ensures IsRun(Init(maxQueue, connections), es) && |After(Init(maxQueue, connections), es).fates| == 2
    ensures After(Init(maxQueue, connections), es).fates[1] == Answered(Reply(0, Cancelled))
  {
    var s0 := Init(maxQueue, connections);
    InitOk(maxQueue, connections);
    var s1 := s0.(putting := {0}, fates := [Pending]);
    var s2 := s1.(putting := {}, queue := [0]);
    var s3 := s2.(queue := [], started := {0}, conns := s0.conns[0 := Conn(Awaiting(0), Receiving, [0], [])]);
    FirstSteps(s0, s1, s2, s3);
    hide Init, Inv;
    es := SecondTask(s3);
    es := Before(s2, Dequeue(0), es);
    es := Before(s1, PutTask(0), es);
    es := Before(s0, CreateTask, es);
  }

  lemma FirstSteps(s0: State, s1: State, s2: State, s3: State)
    requires Inv(s0) && s0 == Init(s0.maxQueue, |s0.conns|) && 0 < |s0.conns|
    requires s1 == s0.(putting := {0}, fates := [Pending]) && s2 == s1.(putting := {}, queue := [0])
    requires s3 == s2.(queue := [], started := {0}, conns := s0.conns[0 := Conn(Awaiting(0), Receiving, [0], [])])
    ensures Shaped(s0) && Enabled(s0, CreateTask) && Apply(s0, CreateTask) == s1
    ensures Shaped(s1) && Enabled(s1, PutTask(0)) && Apply(s1, PutTask(0)) == s2
    ensures Shaped(s2) && Enabled(s2, Dequeue(0)) && Apply(s2, Dequeue(0)) == s3 && Inv(s3)
  {
    StepOkIff(s0, CreateTask);
    assert Apply(s0, CreateTask) == s1;
    StepOkIff(s1, PutTask(0));
    assert Apply(s1, PutTask(0)) == s2;
    StepOkIff(s2, Dequeue(0));
    assert Apply(s2, Dequeue(0)) == s3;
  }

  /** The first task is with the worker when the second is queued; then the reply and the late signal. */
  lemma SecondTask(s: State) returns (es: seq<Event>)
    requires Inv(s) && 0 < |s.conns| && s.conns[0] == Conn(Awaiting(0), Receiving, [0], [])
    requires s.queue == [] && s.started == {0} && s.fates == [Pending] && s.putting == {}
    ensures IsRun(s, es) && |After(s, es).fates| == 2 && After(s, es).fates[1] == Answered(Reply(0, Cancelled))
  {
    StepOkIff(s, CreateTask);
    var s1 := Apply(s, CreateTask);
    assert s1 == s.(putting := {1}, fates := [Pending, Pending]);
    StepOkIff(s1, PutTask(1));
    var s2 := Apply(s1, PutTask(1));
    assert s2 == s1.(putting := {}, queue := [1]);
    StepOkIff(s2, WorkerReceive(0));
    var s3 := Apply(s2, WorkerReceive(0));
    StepOkIff(s3, WorkerReply(0, Result));
    var s4 := Apply(s3, WorkerReply(0, Result));
    assert s4.queue == [1] && s4.started == {0} && s4.fates == [Pending, Pending];
    assert s3.conns[0] == Conn(Awaiting(0), Executing(0), [], []);
    assert s4.conns[0] == Conn(Awaiting(0), Replied(0), [], [Reply(0, Result)]);
    hide Inv, IsRun, After;
    es := LateSignalMisroutes(s4, 0);
    es := Before(s3, WorkerReply(0, Result), es);
    es := Before(s2, WorkerReceive(0), es);
    es := Before(s1, PutTask(1), es);
    es := Before(s, CreateTask, es);
  }
}
