/**
 The batching protocol of `aiomisc/aggregate.py`, as a transition system.

 The code of one coroutine between two suspension points is one atomic step.
 Arrivals, the clock, lock grants, cancellation and what the wrapped function
 does are choices of the environment.  The five fields that `_clear` replaces
 always travel together, so they form one `Batch`; the identity test
 `args is self._args` is the comparison of a batch number with `open`.
 */
module AggregateProtocol {
  import opened Basics

  datatype Failure = ResultNotSet | FuncError(code: int)

  datatype Outcome<+R> = Value(value: R) | Error(failure: Failure)

  datatype Future<+R> = Pending | Done(outcome: Outcome<R>)

  /** How one call of the wrapped function ended; `Raised` after it had yielded some results, none if the
      function itself raised, more if iterating over what it returned did. */
  datatype Ending<+R> = Returned(results: seq<R>) | Raised(results: seq<R>, failure: Failure) | Interrupted

  /** One finished call of the wrapped function: what it was given, how it ended. */
  datatype Call<+V, +R> = Call(args: seq<V>, ending: Ending<R>)

  datatype Batch<+V, +R> = Batch(
    firstCallAt: Option<real>,
    args: seq<V>,
    futures: seq<Future<R>>,
    event: bool,
    lockedBy: Option<nat>,
    calls: seq<Call<V, R>>)

  /** Where a caller of `aggregate` is suspended, or how it ended. */
  datatype Stage<+V, +R> =
    | Waiting
    | Locking
    | Executing(given: seq<V>)
    | AwaitingFuture
    | Finished(outcome: Outcome<R>)
    | Cancelled

  datatype Caller<+V, +R> = Caller(arg: V, batch: nat, index: nat, stage: Stage<V, R>)

  datatype State<+V, +R> = State(
    now: real,
    open: nat,
    batches: seq<Batch<V, R>>,
    callers: seq<Caller<V, R>>)

  datatype Config = Config(leeway: real, maxCount: Option<nat>) {
    predicate Valid() {
      0.0 < leeway && (maxCount.Some? ==> 0 < maxCount.value)
    }
  }

  datatype Event<+V, +R> =
    | Tick(now: real)
    | Arrive(arg: V)
    | Wake(caller: nat)
    | Timeout(caller: nat)
    | Grant(caller: nat)
    | FuncSet(caller: nat, index: nat, outcome: Outcome<R>)
    | FuncReturn(caller: nat, results: seq<R>)
    | FuncRaise(caller: nat, results: seq<R>, failure: Failure)
    | Cancel(caller: nat)

  function EmptyBatch<V, R>(): Batch<V, R> {
    Batch(None, [], [], false, None, [])
  }

  function Init<V, R>(): State<V, R> {
    State(0.0, 0, [EmptyBatch()], [])
  }

  /** Indices are in range, so that every step below is well defined. */
  ghost predicate Shaped<V, R>(s: State<V, R>) {
    && s.open < |s.batches|
    && (forall b :: 0 <= b < |s.batches| ==> |s.batches[b].args| == |s.batches[b].futures|)
    && (forall c :: 0 <= c < |s.callers| ==>
          && s.callers[c].batch < |s.batches|
          && s.callers[c].index < |s.batches[s.callers[c].batch].args|)
  }

  ghost function BatchOf<V, R>(s: State<V, R>, c: nat): Batch<V, R>
    requires Shaped(s) && c < |s.callers|
  {
    s.batches[s.callers[c].batch]
  }

  ghost predicate Enabled<V, R>(cfg: Config, s: State<V, R>, e: Event<V, R>)
    requires Shaped(s)
  {
    match e
    case Tick(t) => s.now <= t
    case Arrive(_) => true
    case Wake(c) => c < |s.callers| && s.callers[c].stage.Waiting? && BatchOf(s, c).event
    case Timeout(c) =>
      && c < |s.callers| && s.callers[c].stage.Waiting?
      && BatchOf(s, c).firstCallAt.Some?
      && BatchOf(s, c).firstCallAt.value + cfg.leeway <= s.now
    case Grant(c) => c < |s.callers| && s.callers[c].stage.Locking? && BatchOf(s, c).lockedBy.None?
    case FuncSet(c, i, _) =>
      && c < |s.callers| && s.callers[c].stage.Executing?
      && i < |BatchOf(s, c).futures| && BatchOf(s, c).futures[i].Pending?
    case FuncReturn(c, _) => c < |s.callers| && s.callers[c].stage.Executing?
    case FuncRaise(c, rs, _) =>
      c < |s.callers| && s.callers[c].stage.Executing? && |rs| <= |BatchOf(s, c).futures|
    case Cancel(c) =>
      && c < |s.callers|
      && (s.callers[c].stage.Waiting? || s.callers[c].stage.Locking? || s.callers[c].stage.Executing?)
  }

  // ---------------------------------------------------------------- the steps

  function SetStage<V, R>(s: State<V, R>, c: nat, stage: Stage<V, R>): State<V, R>
    requires c < |s.callers|
  {
    s.(callers := s.callers[c := s.callers[c].(stage := stage)])
  }

  function SetBatch<V, R>(s: State<V, R>, b: nat, batch: Batch<V, R>): State<V, R>
    requires b < |s.batches|
  {
    s.(batches := s.batches[b := batch])
  }

  /** `_clear`: the aggregator starts a new batch; the old one is sealed. */
  function Clear<V, R>(s: State<V, R>): State<V, R> {
    s.(open := |s.batches|, batches := s.batches + [EmptyBatch()])
  }

  function ClearIfOpen<V, R>(s: State<V, R>, b: nat): State<V, R> {
    if b == s.open then Clear(s) else s
  }

  /** What the futures are after the zip loop of the wrapper. */
  function Zipped<R>(futures: seq<Future<R>>, results: seq<R>): (r: seq<Future<R>>) {
    seq(|futures|, i requires 0 <= i < |futures| =>
      if futures[i].Pending? && i < |results| then Done(Value(results[i])) else futures[i])
  }

  /** What the futures are after every pending one got the same failure. */
  function Failed<R>(futures: seq<Future<R>>, failure: Failure): (r: seq<Future<R>>) {
    seq(|futures|, i requires 0 <= i < |futures| =>
      if futures[i].Pending? then Done(Error(failure)) else futures[i])
  }

  /** Leaving `async with lock`, then `await future`. */
  function AfterLock<V, R>(future: Future<R>): Stage<V, R> {
    match future
    case Pending => AwaitingFuture
    case Done(o) => Finished(o)
  }

  ghost function Apply<V, R>(cfg: Config, s: State<V, R>, e: Event<V, R>): State<V, R>
    requires Shaped(s) && Enabled(cfg, s, e)
  {
    match e
    case Tick(t) => s.(now := t)
    case Arrive(arg) => Joined(cfg, s, arg)
    case Wake(c) => SetStage(ClearIfOpen(s, s.callers[c].batch), c, Locking)
    case Timeout(c) => SetStage(ClearIfOpen(s, s.callers[c].batch), c, Locking)
    case Grant(c) => Granted(s, c)
    case FuncSet(c, i, o) =>
      var b := BatchOf(s, c);
      SetBatch(s, s.callers[c].batch, b.(futures := b.futures[i := Done(o)]))
    case FuncReturn(c, rs) =>
      Ended(s, c, Failed(Zipped(BatchOf(s, c).futures, rs), ResultNotSet), Returned(rs))
    case FuncRaise(c, rs, f) =>
      Ended(s, c, Failed(Zipped(BatchOf(s, c).futures, rs), f), Raised(rs, f))
    case Cancel(c) =>
      if s.callers[c].stage.Executing?
      then SetStage(Ended(s, c, BatchOf(s, c).futures, Interrupted), c, Cancelled)
      else SetStage(s, c, Cancelled)
  }

  /** `aggregate` up to its first suspension. */
  ghost function Joined<V, R>(cfg: Config, s: State<V, R>, arg: V): State<V, R>
    requires Shaped(s)
  {
    var b := s.batches[s.open];
    var grown := b.(firstCallAt := if b.firstCallAt.None? then Some(s.now) else b.firstCallAt,
                    args := b.args + [arg],
                    futures := b.futures + [Pending]);
    var full := cfg.maxCount == Some(|grown.args|);
    var me := Caller(arg, s.open, |b.args|, if full then Locking else Waiting);
    var s1 := SetBatch(s, s.open, grown.(event := full || b.event)).(callers := s.callers + [me]);
    if full then Clear(s1) else s1
  }

  /** The lock is granted: skip if the own future is done, else call the function. */
  ghost function Granted<V, R>(s: State<V, R>, c: nat): State<V, R>
    requires Shaped(s) && c < |s.callers|
  {
    var b := BatchOf(s, c);
    var own := b.futures[s.callers[c].index];
    if own.Done? then SetStage(s, c, AfterLock(own))
    else SetStage(SetBatch(s, s.callers[c].batch, b.(lockedBy := Some(c))), c, Executing(b.args))
  }

  /** `_execute` is over: the futures are as given, the lock is released. */
  ghost function Ended<V, R>(s: State<V, R>, c: nat, futures: seq<Future<R>>, ending: Ending<R>): State<V, R>
    requires Shaped(s) && c < |s.callers| && s.callers[c].stage.Executing?
    requires |futures| == |BatchOf(s, c).futures|
  {
    var b := BatchOf(s, c);
    var b' := b.(futures := futures, lockedBy := None,
                 calls := b.calls + [Call(s.callers[c].stage.given, ending)]);
    SetStage(SetBatch(s, s.callers[c].batch, b'), c, AfterLock(futures[s.callers[c].index]))
  }

  // ------------------------------------------------------------- the invariant

  /** The batch has been executed to the end: its last call was not interrupted. */
  predicate Settled<V, R>(b: Batch<V, R>) {
    b.calls != [] && !b.calls[|b.calls| - 1].ending.Interrupted?
  }

  ghost predicate BatchOk<V, R>(cfg: Config, now: real, b: Batch<V, R>, open: bool) {
    && |b.args| == |b.futures|
    && (b.firstCallAt.Some? <==> b.args != [])
    && (open ==> Fresh(cfg, b))
    && (!open ==> SealedOk(cfg, now, b))
    && (b.event <==> cfg.maxCount == Some(|b.args|))
    && (b.event ==> !open)
    && CallsOk(b)
  }

  /** What holds of the open batch: it has room and nobody has touched its futures. */
  ghost predicate Fresh<V, R>(cfg: Config, b: Batch<V, R>) {
    && (cfg.maxCount.Some? ==> |b.args| < cfg.maxCount.value)
    && b.lockedBy.None? && b.calls == []
    && (forall i :: 0 <= i < |b.futures| ==> b.futures[i].Pending?)
  }

  /** What holds of a sealed batch: it is full, or its leeway has run out. */
  ghost predicate SealedOk<V, R>(cfg: Config, now: real, b: Batch<V, R>) {
    && b.args != [] && b.firstCallAt.Some?
    && (cfg.maxCount.Some? ==> |b.args| <= cfg.maxCount.value)
    && (cfg.maxCount == Some(|b.args|) || b.firstCallAt.value + cfg.leeway <= now)
  }

  /** Calls saw exactly the batch; only the last may have ended without cancellation,
      and then nobody executes and every future is done. */
  ghost predicate CallsOk<V, R>(b: Batch<V, R>) {
    && (forall k :: 0 <= k < |b.calls| ==> b.calls[k].args == b.args)
    && (forall k :: 0 <= k < |b.calls| - 1 ==> b.calls[k].ending.Interrupted?)
    && (Settled(b) ==> b.lockedBy.None? && forall i :: 0 <= i < |b.futures| ==> b.futures[i].Done?)
  }

  ghost predicate CallerOk<V, R>(s: State<V, R>, c: nat)
    requires Shaped(s) && c < |s.callers|
  {
    var me, b := s.callers[c], BatchOf(s, c);
    && b.args[me.index] == me.arg
    && !me.stage.AwaitingFuture?
    && (me.stage.Locking? || me.stage.Executing? || me.stage.Finished? ==> me.batch != s.open)
    && (me.stage.Executing? <==> b.lockedBy == Some(c))
    && (me.stage.Executing? ==> me.stage.given == b.args)
    && (me.stage.Finished? ==> b.futures[me.index] == Done(me.stage.outcome))
  }

  ghost predicate Inv<V, R>(cfg: Config, s: State<V, R>) {
    && Shaped(s)
    && s.open == |s.batches| - 1
    && (forall b :: 0 <= b < |s.batches| ==> BatchOk(cfg, s.now, s.batches[b], b == s.open))
    && (forall c :: 0 <= c < |s.callers| ==> CallerOk(s, c))
    && LocksHeld(s)
    && SlotsOwned(s)
  }

  /** A held lock is held by an executing caller of that batch. */
  ghost predicate LocksHeld<V, R>(s: State<V, R>) {
    forall b :: 0 <= b < |s.batches| && s.batches[b].lockedBy.Some? ==>
      var h := s.batches[b].lockedBy.value;
      h < |s.callers| && s.callers[h].batch == b && s.callers[h].stage.Executing?
  }

  /** No two callers share a future. */
  ghost predicate SlotsOwned<V, R>(s: State<V, R>) {
    forall c, d :: 0 <= c < d < |s.callers| ==>
      s.callers[c].batch != s.callers[d].batch || s.callers[c].index != s.callers[d].index
  }
}
