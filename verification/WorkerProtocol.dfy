/**
 Requests and replies between `WorkerPool.__handle_client` (`aiomisc/worker_pool.py`) and the loop of
 `worker` (`aiomisc_worker/worker.py`), over any number of connections that share one task queue.

 A reply carries the number of the task whose function produced it; the source has no such number, so
 the handler below never looks at it.
 */
module WorkerProtocol {

  datatype Kind = Result | Exception | Cancelled

  datatype Reply = Reply(task: nat, kind: Kind)

  datatype Fate = Pending | Answered(reply: Reply) | ProcessError | HandlerError | CallerCancelled

  datatype Handler = Idle | Awaiting(task: nat) | Gone

  /** `Replied` is the moment after the reply was sent and before `execute` returns. */
  datatype Worker = Receiving | Executing(task: nat) | Replied(task: nat) | Dead

  /** One connection: requests on their way down, replies on their way up. */
  datatype Conn = Conn(handler: Handler, worker: Worker, down: seq<nat>, up: seq<Reply>)

  /** `putting` are the tasks whose `create_task` waits for room in the queue, which holds at most
      `maxQueue` of them, or any number if that is zero. */
  datatype State = State(
    maxQueue: nat,
    putting: set<nat>,
    queue: seq<nat>,
    started: set<nat>,
    fates: seq<Fate>,
    conns: seq<Conn>,
    abandoned: set<nat>)

  datatype Event =
    | CreateTask
    | PutTask(task: nat)
    | CancelPut(task: nat)
    | CancelCaller(task: nat)
    | Dequeue(conn: nat)
    | WorkerReceive(conn: nat)
    | WorkerReply(conn: nat, kind: Kind)
    | WorkerNext(conn: nat)
    | WorkerDies(conn: nat)
    | LateSignal(conn: nat)
    | HandlerReceive(conn: nat)
    | HandlerEof(conn: nat)
    | HandlerRaised(conn: nat)
    | HandlerCancelled(conn: nat)

  function Init(maxQueue: nat, connections: nat): State {
    State(maxQueue, {}, [], {}, [], seq(connections, _ => Conn(Idle, Receiving, [], [])), {})
  }

  ghost predicate Shaped(s: State) {
    && (forall i :: 0 <= i < |s.queue| ==> s.queue[i] < |s.fates|)
    && (forall t :: t in s.putting ==> t < |s.fates|)
    && (s.maxQueue == 0 || |s.queue| <= s.maxQueue)
    && (forall c :: 0 <= c < |s.conns| && s.conns[c].handler.Awaiting? ==> s.conns[c].handler.task < |s.fates|)
  }

  predicate HasRoom(maxQueue: nat, queue: seq<nat>) {
    maxQueue == 0 || |queue| < maxQueue
  }

  ghost predicate Enabled(s: State, e: Event) {
    match e
    case CreateTask => true
    case PutTask(t) => t in s.putting && HasRoom(s.maxQueue, s.queue)
    case CancelPut(t) => t in s.putting
    case CancelCaller(t) => t < |s.fates| && s.fates[t].Pending? && t !in s.putting
    case Dequeue(c) => c < |s.conns| && s.conns[c].handler.Idle? && s.queue != []
    case WorkerReceive(c) => c < |s.conns| && s.conns[c].worker.Receiving? && s.conns[c].down != []
    case WorkerReply(c, _) => c < |s.conns| && s.conns[c].worker.Executing?
    case WorkerNext(c) => c < |s.conns| && s.conns[c].worker.Replied?
    case WorkerDies(c) => c < |s.conns| && !s.conns[c].worker.Dead?
    case LateSignal(c) => c < |s.conns| && s.conns[c].worker.Replied?
    case HandlerReceive(c) => c < |s.conns| && s.conns[c].handler.Awaiting? && s.conns[c].up != []
    case HandlerEof(c) =>
      c < |s.conns| && s.conns[c].handler.Awaiting? && s.conns[c].up == [] && s.conns[c].worker.Dead?
    case HandlerRaised(c) => c < |s.conns| && s.conns[c].handler.Awaiting?
    case HandlerCancelled(c) => c < |s.conns| && !s.conns[c].handler.Gone?
  }

  // ------------------------------------------------------------------ the steps

  function SetConn(s: State, c: nat, conn: Conn): State
    requires c < |s.conns|
  {
    s.(conns := s.conns[c := conn])
  }

  /** The handler tests `result_future.done()` before it sets anything. */
  function Resolve(fates: seq<Fate>, t: nat, fate: Fate): seq<Fate>
    requires t < |fates|
  {
    if fates[t].Pending? then fates[t := fate] else fates
  }

  /** The next task: skipped if its futures are done, else sent down the connection. */
  ghost function Dequeued(s: State, c: nat): State
    requires Shaped(s) && Enabled(s, Dequeue(c))
  {
    var t, conn := s.queue[0], s.conns[c];
    var s1 := s.(queue := s.queue[1..]);
    if t in s.started || !s.fates[t].Pending? then s1
    else SetConn(s1, c, conn.(handler := Awaiting(t), down := conn.down + [t])).(started := s.started + {t})
  }

  ghost function Apply(s: State, e: Event): State
    requires Shaped(s) && Enabled(s, e)
  {
    match e
    case CreateTask => s.(putting := s.putting + {|s.fates|}, fates := s.fates + [Pending])
    case PutTask(t) => s.(putting := s.putting - {t}, queue := s.queue + [t])
    case CancelPut(t) => s.(putting := s.putting - {t})
    case CancelCaller(t) => s.(fates := Resolve(s.fates, t, CallerCancelled))
    case Dequeue(c) => Dequeued(s, c)
    case WorkerReceive(c) =>
      var conn := s.conns[c];
      SetConn(s, c, conn.(worker := Executing(conn.down[0]), down := conn.down[1..]))
    case WorkerReply(c, kind) =>
      var conn := s.conns[c];
      SetConn(s, c, conn.(worker := Replied(conn.worker.task), up := conn.up + [Reply(conn.worker.task, kind)]))
    case WorkerNext(c) => SetConn(s, c, s.conns[c].(worker := Receiving))
    case WorkerDies(c) => SetConn(s, c, s.conns[c].(worker := Dead))
    case LateSignal(c) =>
      var conn := s.conns[c];
      SetConn(s, c, conn.(worker := Receiving, up := conn.up + [Reply(conn.worker.task, Cancelled)]))
    case HandlerReceive(c) =>
      var conn := s.conns[c];
      SetConn(s, c, conn.(handler := Idle, up := conn.up[1..])).(
        fates := Resolve(s.fates, conn.handler.task, Answered(conn.up[0])))
    case HandlerEof(c) =>
      var conn := s.conns[c];
      SetConn(s, c, conn.(handler := Gone)).(fates := Resolve(s.fates, conn.handler.task, ProcessError))
    case HandlerRaised(c) =>
      var conn := s.conns[c];
      SetConn(s, c, conn.(handler := Gone)).(fates := Resolve(s.fates, conn.handler.task, HandlerError))
    case HandlerCancelled(c) =>
      var conn := s.conns[c];
      SetConn(s, c, conn.(handler := Gone)).(
        abandoned := if conn.handler.Awaiting? then s.abandoned + {conn.handler.task} else s.abandoned)
  }

  // -------------------------------------------------------------- the invariant

  /** At most one request is outstanding on a connection, in one place, and it is the one the
      handler waits for. */
  ghost predicate ConnOk(conn: Conn) {
    match conn.handler
    case Gone => true
    case Idle => conn.up == [] && (conn.worker.Dead? || (conn.down == [] && !conn.worker.Executing?))
    case Awaiting(t) =>
      && (conn.up == [] || (|conn.up| == 1 && conn.up[0].task == t))
      && (conn.worker.Dead?
          || (conn.up == [] && conn.down == [t] && !conn.worker.Executing?)
          || (conn.up == [] && conn.down == [] && conn.worker == Executing(t))
          || (conn.up != [] && conn.down == [] && !conn.worker.Executing?))
  }

  ghost predicate ConnsOk(s: State) {
    forall c :: 0 <= c < |s.conns| ==> ConnOk(s.conns[c])
  }

  /** A reply resolves only the future of the task it belongs to. */
  ghost predicate Routed(s: State) {
    forall t :: 0 <= t < |s.fates| && s.fates[t].Answered? ==> s.fates[t].reply.task == t
  }

  ghost predicate Awaited(conns: seq<Conn>, t: nat) {
    exists c :: 0 <= c < |conns| && conns[c].handler == Awaiting(t)
  }

  /** A task that was sent is resolved, or its handler still waits for it, or was cancelled. */
  ghost predicate Answerable(s: State) {
    forall t :: t in s.started ==>
      t < |s.fates| && (!s.fates[t].Pending? || Awaited(s.conns, t) || t in s.abandoned)
  }

  /** A handler waits only for a task that was sent, and no two wait for the same one. */
  ghost predicate SentOnce(s: State) {
    && (forall c :: 0 <= c < |s.conns| && s.conns[c].handler.Awaiting? ==> s.conns[c].handler.task in s.started)
    && (forall c, d :: 0 <= c < d < |s.conns| && s.conns[c].handler.Awaiting? && s.conns[d].handler.Awaiting? ==>
          s.conns[c].handler.task != s.conns[d].handler.task)
  }

  ghost predicate Inv(s: State) {
    Shaped(s) && ConnsOk(s) && Routed(s) && Answerable(s) && SentOnce(s)
  }
}
