/**
 `aiomisc/thread_pool.py` as a transition system: the threads of `thread_pool_thread_loop`, the
 `TaskChannel` with its close sentinel, the event loop that delivers results, and one `shutdown`.

 Threads run in parallel, so every access to shared state is a step of its own: each event test, the
 blocking get, the re-put of the sentinel, each statistic counter, each test of `done()` or of
 `is_closed()`, each pop from the set of futures, and each write to a future.

 `set_result` and `set_exception` are one step.  On a future that is done they raise and change
 nothing.  On a closed loop they set the outcome and then raise, because `submit` has registered a
 callback that they hand to the loop.
 */
module ThreadPoolProtocol {
  import opened Basics

  datatype Item = Work(future: nat) | Sentinel

  datatype Outcome = Result | Raised | PoolClosed | LoopClosed | Cancelled

  datatype Fate = Pending | Resolved(outcome: Outcome)

  /** Where a thread is in its loop and in `TaskChannel.get` and `WorkItem.__call__`.  `Undone` has seen
      that the future is not done, `Sending` that the loop is not closed; `Forgetting` has seen that it
      is closed, and `Failing` in addition that the future is not done. */
  datatype Stage =
    | AtLoop
    | AtGet
    | Blocked
    | Handing
    | Holding(future: nat)
    | Undone(future: nat)
    | Running(future: nat)
    | Ran(future: nat, ok: bool)
    | Posting(future: nat, ok: bool)
    | Sending(future: nat, ok: bool)
    | Forgetting(future: nat)
    | Failing(future: nat)
    | Exited

  /** Why `shutdown` raised: the set was emptied under its hands, the future was done by the time it
      was written, or the loop was closed. */
  datatype Cause = KeyError | InvalidState | ClosedLoop

  /** How far `shutdown` has come; from `AtWhile` on it is in the loop over the futures. */
  datatype Closer =
    | Open
    | Flagged
    | Shut
    | AtWhile
    | Popping
    | Popped(future: nat)
    | Writing(future: nat)
    | Finished
    | Aborted(cause: Cause)

  datatype Stats = Stats(success: nat, error: nat, done: nat, submitted: nat)

  /** `tracked` is the set of futures; `posted` are the results on their way to the loop, and
      `delivering` is the one that `_set_workitem_result` has found not done. */
  datatype State = State(
    stages: seq<Stage>,
    taken: seq<nat>,
    queue: seq<Item>,
    fates: seq<Fate>,
    tracked: set<nat>,
    posted: seq<(nat, bool)>,
    delivering: Option<(nat, bool)>,
    loopClosed: bool,
    closer: Closer,
    stats: Stats)

  datatype Event =
    | Submit
    | Check(thread: nat)
    | Get(thread: nat)
    | Take(thread: nat)
    | PutBack(thread: nat)
    | Begin(thread: nat)
    | TestLoop(thread: nat)
    | Return(thread: nat, ok: bool)
    | CountDone(thread: nat)
    | Send(thread: nat)
    | TestForgotten(thread: nat)
    | Fail(thread: nat)
    | Deliver
    | SetResult
    | Cancel(future: nat)
    | Discard(future: nat)
    | CloseLoop
    | Flag
    | Close
    | PutSentinel
    | While
    | Pop(future: nat)
    | PopEmpty
    | TestPopped
    | Reject

  function Times<T>(x: T, n: nat): (r: seq<T>)
    ensures |r| == n && forall i :: 0 <= i < n ==> r[i] == x
  {
    seq(n, _ => x)
  }

  function InitialThreads(maxWorkers: int): nat {
    if maxWorkers > 1 then 2 else 1
  }

  function Init(maxWorkers: int): State {
    var n := InitialThreads(maxWorkers);
    State(Times(AtLoop, n), Times(0, n), [], [], {}, [], None, false, Open, Stats(0, 0, 0, 0))
  }

  ghost predicate Shaped(s: State) {
    && |s.taken| == |s.stages|
    && (forall i :: 0 <= i < |s.queue| ==> s.queue[i].Work? ==> s.queue[i].future < |s.fates|)
    && (forall t :: 0 <= t < |s.stages| ==> StageShaped(s.stages[t], |s.fates|))
    && (forall i :: 0 <= i < |s.posted| ==> s.posted[i].0 < |s.fates|)
    && (s.delivering.Some? ==> s.delivering.value.0 < |s.fates|)
    && (forall f :: f in s.tracked ==> f < |s.fates|)
    && (s.closer.Popped? || s.closer.Writing? ==> s.closer.future < |s.fates|)
  }

  predicate HasFuture(stage: Stage) {
    !stage.AtLoop? && !stage.AtGet? && !stage.Blocked? && !stage.Handing? && !stage.Exited?
  }

  predicate StageShaped(stage: Stage, futures: nat) {
    HasFuture(stage) ==> stage.future < futures
  }

  ghost predicate Enabled(s: State, e: Event) {
    match e
    case Submit => s.closer.Open?
    case Check(t) => t < |s.stages| && s.stages[t].AtLoop?
    case Get(t) => t < |s.stages| && s.stages[t].AtGet?
    case Take(t) => t < |s.stages| && s.stages[t].Blocked? && s.queue != []
    case PutBack(t) => t < |s.stages| && s.stages[t].Handing?
    case Begin(t) => t < |s.stages| && s.stages[t].Holding?
    case TestLoop(t) => t < |s.stages| && (s.stages[t].Undone? || s.stages[t].Posting?)
    case Return(t, _) => t < |s.stages| && s.stages[t].Running?
    case CountDone(t) => t < |s.stages| && s.stages[t].Ran?
    case Send(t) => t < |s.stages| && s.stages[t].Sending?
    case TestForgotten(t) => t < |s.stages| && s.stages[t].Forgetting?
    case Fail(t) => t < |s.stages| && s.stages[t].Failing?
    case Deliver => s.posted != [] && s.delivering.None? && !s.loopClosed
    case SetResult => s.delivering.Some?
    case Cancel(f) => f < |s.fates| && s.fates[f].Pending?
    case Discard(f) =>
      f in s.tracked && f < |s.fates| && s.fates[f].Resolved? && s.delivering.None? && !s.loopClosed
    case CloseLoop => s.delivering.None?
    case Flag => s.closer.Open?
    case Close => s.closer.Flagged?
    case PutSentinel => s.closer.Shut?
    case While => s.closer.AtWhile?
    case Pop(f) => s.closer.Popping? && f in s.tracked && f < |s.fates|
    case PopEmpty => s.closer.Popping? && s.tracked == {}
    case TestPopped => s.closer.Popped?
    case Reject => s.closer.Writing?
  }

  // ------------------------------------------------------------------ the steps

  function Min(a: int, b: int): int {
    if a < b then a else b
  }

  /** How many threads `_adjust_thread_count` adds to a pool of this size. */
  function Growth(poolSize: nat, maxWorkers: int): nat {
    var n := Min(poolSize * 2, maxWorkers) - poolSize;
    if n <= 0 then 0 else n
  }

  /** `set_result` or `set_exception`: a future that is done raises and keeps its outcome. */
  function Write(fates: seq<Fate>, f: nat, outcome: Outcome): seq<Fate>
    requires f < |fates|
  {
    if fates[f].Resolved? then fates else fates[f := Resolved(outcome)]
  }

  function SetStage(s: State, t: nat, stage: Stage): State
    requires t < |s.stages|
  {
    s.(stages := s.stages[t := stage])
  }

  /** How many threads a submission starts. */
  function Extra(maxWorkers: int, threads: nat, tracked: nat): nat {
    if threads < maxWorkers && tracked >= threads then Growth(threads, maxWorkers) else 0
  }

  function Submitted(maxWorkers: int, s: State): State {
    var extra := Extra(maxWorkers, |s.stages|, |s.tracked|);
    s.(stages := s.stages + Times(AtLoop, extra),
       taken := s.taken + Times(0, extra),
       queue := s.queue + [Work(|s.fates|)],
       tracked := s.tracked + {|s.fates|},
       fates := s.fates + [Pending],
       stats := s.stats.(submitted := s.stats.submitted + 1))
  }

  /** The event belongs to one thread of the pool. */
  predicate OfThread(e: Event) {
    || e.Check? || e.Get? || e.Take? || e.PutBack? || e.Begin? || e.TestLoop? || e.Return? || e.CountDone?
    || e.Send? || e.TestForgotten? || e.Fail?
  }

  /** The event belongs to `shutdown`. */
  predicate OfCloser(e: Event) {
    e.Flag? || e.Close? || e.PutSentinel? || e.While? || e.Pop? || e.PopEmpty? || e.TestPopped? || e.Reject?
  }

  /** Where the step leads the thread; `Exited` where an exception leaves its loop. */
  ghost function NextStage(s: State, e: Event): Stage
    requires Shaped(s) && Enabled(s, e) && OfThread(e)
  {
    var stage := s.stages[e.thread];
    match e
    case Check(_) => if s.closer.Open? then AtGet else Exited
    case Get(_) => if s.closer.Open? || s.closer.Flagged? then Blocked else Exited
    case Take(_) => if s.queue[0].Sentinel? then Handing else Holding(s.queue[0].future)
    case PutBack(_) => Exited
    case Begin(_) => if s.fates[stage.future].Resolved? then AtLoop else Undone(stage.future)
    case TestLoop(_) =>
      if s.loopClosed then Forgetting(stage.future)
      else if stage.Undone? then Running(stage.future) else Sending(stage.future, stage.ok)
    case Return(_, ok) => Ran(stage.future, ok)
    case CountDone(_) => Posting(stage.future, stage.ok)
    case Send(_) => if s.loopClosed then Exited else AtLoop
    case TestForgotten(_) => if s.fates[stage.future].Resolved? then Exited else Failing(stage.future)
    case Fail(_) => Exited
  }

  /** A thread touches neither `shutdown` nor the set of futures. */
  ghost function ThreadMoved(s: State, e: Event): (r: State)
    requires Shaped(s) && Enabled(s, e) && OfThread(e)
    ensures r.closer == s.closer && r.tracked == s.tracked
    ensures r.loopClosed == s.loopClosed && r.delivering == s.delivering && |r.fates| == |s.fates|
  {
    var t, stage := e.thread, s.stages[e.thread];
    var s1 := SetStage(s, t, NextStage(s, e));
    match e
    case Take(_) =>
      s1.(queue := s.queue[1..],
          taken := if s.closer.Open? then s.taken else s.taken[t := s.taken[t] + 1])
    case PutBack(_) => s1.(queue := s.queue + [Sentinel])
    case Return(_, ok) =>
      s1.(stats := if ok then s.stats.(success := s.stats.success + 1) else s.stats.(error := s.stats.error + 1))
    case CountDone(_) => s1.(stats := s.stats.(done := s.stats.done + 1))
    case Send(_) => if s.loopClosed then s1 else s1.(posted := s.posted + [(stage.future, stage.ok)])
    case Fail(_) => s1.(fates := Write(s.fates, stage.future, LoopClosed))
    case _ => s1
  }

  /** The write of the rejection loop: it raises if the future is done by now or the loop is closed. */
  function Rejected(s: State): State
    requires s.closer.Writing? && s.closer.future < |s.fates|
  {
    s.(fates := Write(s.fates, s.closer.future, PoolClosed),
       closer := if s.fates[s.closer.future].Resolved? then Aborted(InvalidState)
                 else if s.loopClosed then Aborted(ClosedLoop) else AtWhile)
  }

  /** A step of `shutdown` leaves the threads, the loop and the statistics alone. */
  ghost function CloserMoved(s: State, e: Event): (r: State)
    requires Shaped(s) && Enabled(s, e) && OfCloser(e)
    ensures r.stages == s.stages && r.taken == s.taken && r.stats == s.stats && |r.fates| == |s.fates|
    ensures r.posted == s.posted && r.delivering == s.delivering && r.loopClosed == s.loopClosed
  {
    match e
    case Flag => s.(closer := Flagged)
    case Close => s.(closer := Shut)
    case PutSentinel => s.(closer := AtWhile, queue := s.queue + [Sentinel])
    case While => s.(closer := if s.tracked == {} then Finished else Popping)
    case Pop(f) => s.(closer := Popped(f), tracked := s.tracked - {f})
    case PopEmpty => s.(closer := Aborted(KeyError))
    case TestPopped =>
      s.(closer := if s.fates[s.closer.future].Resolved? then AtWhile else Writing(s.closer.future))
    case Reject => Rejected(s)
  }

  /** The event belongs to the event loop or to a caller's future. */
  predicate OfLoop(e: Event) {
    e.Deliver? || e.SetResult? || e.Cancel? || e.Discard? || e.CloseLoop?
  }

  /** A step of the event loop leaves the threads, their queue, `shutdown` and the statistics alone. */
  ghost function LoopMoved(s: State, e: Event): (r: State)
    requires Shaped(s) && Enabled(s, e) && OfLoop(e)
    ensures r.stages == s.stages && r.taken == s.taken && r.stats == s.stats && |r.fates| == |s.fates|
    ensures r.queue == s.queue && r.closer == s.closer
  {
    match e
    case Deliver =>
      s.(posted := s.posted[1..],
         delivering := if s.fates[s.posted[0].0].Resolved? then None else Some(s.posted[0]))
    case SetResult =>
      s.(delivering := None,
         fates := Write(s.fates, s.delivering.value.0, if s.delivering.value.1 then Result else Raised))
    case Cancel(f) => s.(fates := Write(s.fates, f, Cancelled))
    case Discard(f) => s.(tracked := s.tracked - {f})
    case CloseLoop => s.(loopClosed := true)
  }

  ghost function Apply(maxWorkers: int, s: State, e: Event): State
    requires Shaped(s) && Enabled(s, e)
  {
    if OfThread(e) then ThreadMoved(s, e)
    else if OfCloser(e) then CloserMoved(s, e)
    else if OfLoop(e) then LoopMoved(s, e)
    else Submitted(maxWorkers, s)
  }

  // -------------------------------------------------------------- the invariant

  function Sentinels(queue: seq<Item>): nat {
    multiset(queue)[Sentinel]
  }

  function InHand(stages: seq<Stage>): nat {
    multiset(stages)[Handing]
  }

  /** Whether a thread has counted success or error but not yet done. */
  function Halfway(stage: Stage): nat {
    if stage.Ran? then 1 else 0
  }

  function Uncounted(stages: seq<Stage>): nat {
    Sum(Halfway, stages)
  }

  /** `shutdown` has put its sentinel. */
  predicate Put(closer: Closer) {
    !closer.Open? && !closer.Flagged? && !closer.Shut?
  }

  predicate Ended(closer: Closer) {
    closer.Finished? || closer.Aborted?
  }

  /** `shutdown` has the future in its hands. */
  predicate Held(closer: Closer, f: nat) {
    closer == Popped(f) || closer == Writing(f)
  }

  ghost predicate PoolOk(maxWorkers: int, s: State) {
    && 1 <= |s.stages| && (|s.stages| <= maxWorkers || |s.stages| == 1)
    && (|s.tracked| <= |s.stages| || maxWorkers <= |s.stages|)
  }

  /** There is one sentinel once `shutdown` has put it, queued or in a thread's hand, and none before. */
  ghost predicate SentinelOk(s: State) {
    Sentinels(s.queue) + InHand(s.stages) == if Put(s.closer) then 1 else 0
  }

  /** A thread takes at most one item after `shutdown` has begun. */
  ghost predicate TakenOk(s: State)
    requires |s.taken| == |s.stages|
  {
    forall t :: 0 <= t < |s.stages| ==>
      && s.taken[t] <= 1
      && (s.closer.Open? || s.stages[t].AtGet? || s.stages[t].Blocked? ==> s.taken[t] == 0)
  }

  /** Every future that is not resolved is tracked, or `shutdown` has it in its hands. */
  ghost predicate FuturesOk(s: State) {
    && (forall f :: 0 <= f < |s.fates| && s.fates[f].Pending? ==> f in s.tracked || Held(s.closer, f))
    && (s.closer.Finished? || s.closer == Aborted(KeyError) ==> s.tracked == {})
  }

  ghost predicate Inv(maxWorkers: int, s: State) {
    && Shaped(s)
    && PoolOk(maxWorkers, s)
    && SentinelOk(s)
    && TakenOk(s)
    && FuturesOk(s)
    && s.stats.success + s.stats.error == s.stats.done + Uncounted(s.stages)
    && s.stats.submitted == |s.fates|
  }
}
