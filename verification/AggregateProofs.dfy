/** What every run of the batching protocol keeps, and where every run ends. */
module AggregateProofs {
  import opened Basics
  import opened AggregateProtocol

  // ------------------------------------------------- every step keeps the invariant

  lemma InitOk<V, R>(cfg: Config)
    requires cfg.Valid()
    ensures Inv(cfg, Init<V, R>())
  {
  }

  /** A step that rewrites one batch and one stage keeps the invariant
      if the new batch and the new stage fit. */
  lemma UpdateOk<V, R>(cfg: Config, s: State<V, R>, c: nat, b': Batch<V, R>, stage: Stage<V, R>)
    requires Inv(cfg, s) && c < |s.callers|
    requires var b := BatchOf(s, c);
             && b'.args == b.args && b'.firstCallAt == b.firstCallAt && b'.event == b.event
             && |b'.futures| == |b.futures|
             && (forall i :: 0 <= i < |b.futures| && b.futures[i].Done? ==> b'.futures[i] == b.futures[i])
    requires BatchOk(cfg, s.now, b', s.callers[c].batch == s.open)
    requires b'.lockedBy == if stage.Executing? then Some(c)
                            else if s.callers[c].stage.Executing? then None else BatchOf(s, c).lockedBy
    requires BatchOf(s, c).lockedBy.None? || BatchOf(s, c).lockedBy == Some(c) || !stage.Executing?
    requires !stage.AwaitingFuture?
    requires stage.Locking? || stage.Executing? || stage.Finished? ==> s.callers[c].batch != s.open
    requires stage.Executing? ==> stage.given == b'.args
    requires stage.Finished? ==> b'.futures[s.callers[c].index] == Done(stage.outcome)
    ensures Inv(cfg, SetStage(SetBatch(s, s.callers[c].batch, b'), c, stage))
  {
    var s' := SetStage(SetBatch(s, s.callers[c].batch, b'), c, stage);
    assert Shaped(s') && CallerOk(s, c);
    forall d | 0 <= d < |s'.callers|
      ensures CallerOk(s', d)
    {
      assert CallerOk(s, d);
    }
  }

  /** Sealing the open batch keeps the invariant if the batch is ripe. */
  lemma ClearOk<V, R>(cfg: Config, s: State<V, R>)
    requires cfg.Valid() && Inv(cfg, s)
    requires SealedOk(cfg, s.now, s.batches[s.open])
    ensures Inv(cfg, Clear(s))
  {
    var s' := Clear(s);
    assert Shaped(s');
    forall d | 0 <= d < |s'.callers|
      ensures CallerOk(s', d)
    {
      assert CallerOk(s, d);
    }
    forall b | 0 <= b < |s'.batches|
      ensures BatchOk(cfg, s'.now, s'.batches[b], b == s'.open)
    {
      assert b < |s.batches| ==> BatchOk(cfg, s.now, s.batches[b], b == s.open);
    }
  }

  lemma JoinedOk<V, R>(cfg: Config, s: State<V, R>, arg: V)
    requires cfg.Valid() && Inv(cfg, s)
    ensures Inv(cfg, Joined(cfg, s, arg))
  {
    var s' := Joined(cfg, s, arg);
    assert BatchOk(cfg, s.now, s.batches[s.open], true);
    JoinedCallersOk(cfg, s, arg);
    forall k | 0 <= k < |s'.batches|
      ensures BatchOk(cfg, s'.now, s'.batches[k], k == s'.open)
    {
      assert k < |s.batches| ==> BatchOk(cfg, s.now, s.batches[k], k == s.open);
    }
  }

  lemma JoinedCallersOk<V, R>(cfg: Config, s: State<V, R>, arg: V)
    requires Inv(cfg, s)
    ensures var s' := Joined(cfg, s, arg);
            && Shaped(s') && LocksHeld(s') && SlotsOwned(s')
            && forall d :: 0 <= d < |s'.callers| ==> CallerOk(s', d)
  {
    var s' := Joined(cfg, s, arg);
    assert BatchOk(cfg, s.now, s.batches[s.open], true);
    hide BatchOk;
    assert Shaped(s');
    forall d | 0 <= d < |s'.callers|
      ensures CallerOk(s', d)
    {
      assert d < |s.callers| ==> CallerOk(s, d);
    }
  }

  lemma TickOk<V, R>(cfg: Config, s: State<V, R>, t: real)
    requires Inv(cfg, s) && s.now <= t
    ensures Inv(cfg, s.(now := t))
  {
    var s' := s.(now := t);
    assert Shaped(s');
    forall d | 0 <= d < |s'.callers|
      ensures CallerOk(s', d)
    {
      assert CallerOk(s, d);
    }
    forall k | 0 <= k < |s'.batches|
      ensures BatchOk(cfg, s'.now, s'.batches[k], k == s'.open)
    {
      assert BatchOk(cfg, s.now, s.batches[k], k == s.open);
    }
  }

  lemma SetStageIsUpdate<V, R>(s: State<V, R>, c: nat, stage: Stage<V, R>)
    requires Shaped(s) && c < |s.callers|
    ensures SetStage(s, c, stage) == SetStage(SetBatch(s, s.callers[c].batch, BatchOf(s, c)), c, stage)
  {
    assert s.batches[s.callers[c].batch := BatchOf(s, c)] == s.batches;
  }

  lemma WaitOverOk<V, R>(cfg: Config, s: State<V, R>, e: Event<V, R>)
    requires cfg.Valid() && Inv(cfg, s) && Enabled(cfg, s, e) && (e.Wake? || e.Timeout?)
    ensures Inv(cfg, Apply(cfg, s, e))
  {
    var c := e.caller;
    assert CallerOk(s, c);
    var b := s.callers[c].batch;
    assert BatchOk(cfg, s.now, s.batches[b], b == s.open);
    if b == s.open {
      ClearOk(cfg, s);
    }
    var s1 := ClearIfOpen(s, b);
    SetStageIsUpdate(s1, c, Locking);
    assert CallerOk(s1, c);
    assert BatchOk(cfg, s1.now, s1.batches[b], b == s1.open);
    UpdateOk(cfg, s1, c, BatchOf(s1, c), Locking);
  }

  lemma GrantedOk<V, R>(cfg: Config, s: State<V, R>, c: nat)
    requires Inv(cfg, s) && Enabled(cfg, s, Grant(c))
    ensures Inv(cfg, Granted(s, c))
  {
    assert CallerOk(s, c);
    var b := BatchOf(s, c);
    assert BatchOk(cfg, s.now, b, s.callers[c].batch == s.open);
    var own := b.futures[s.callers[c].index];
    if own.Done? {
      SetStageIsUpdate(s, c, AfterLock(own));
      UpdateOk(cfg, s, c, b, AfterLock(own));
    } else {
      UpdateOk(cfg, s, c, b.(lockedBy := Some(c)), Executing(b.args));
    }
  }

  /** An execution that was not interrupted leaves every future done. */
  lemma EndedOk<V, R>(cfg: Config, s: State<V, R>, c: nat, futures: seq<Future<R>>, ending: Ending<R>)
    requires Inv(cfg, s) && c < |s.callers| && s.callers[c].stage.Executing?
    requires !ending.Interrupted?
    requires |futures| == |BatchOf(s, c).futures|
    requires forall i :: 0 <= i < |futures| ==>
               futures[i].Done? && (BatchOf(s, c).futures[i].Done? ==> futures[i] == BatchOf(s, c).futures[i])
    ensures Inv(cfg, Ended(s, c, futures, ending))
  {
    assert CallerOk(s, c);
    var b := BatchOf(s, c);
    assert BatchOk(cfg, s.now, b, s.callers[c].batch == s.open);
    var b' := b.(futures := futures, lockedBy := None,
                 calls := b.calls + [Call(s.callers[c].stage.given, ending)]);
    UpdateOk(cfg, s, c, b', AfterLock(futures[s.callers[c].index]));
  }

  lemma CancelOk<V, R>(cfg: Config, s: State<V, R>, c: nat)
    requires Inv(cfg, s) && Enabled(cfg, s, Cancel(c))
    ensures Inv(cfg, Apply(cfg, s, Cancel(c)))
  {
    assert CallerOk(s, c);
    var b := BatchOf(s, c);
    assert BatchOk(cfg, s.now, b, s.callers[c].batch == s.open);
    if s.callers[c].stage.Executing? {
      var b' := b.(lockedBy := None, calls := b.calls + [Call(s.callers[c].stage.given, Interrupted)]);
      assert !Settled(b);
      UpdateOk(cfg, s, c, b', Cancelled);
      var mid := Ended(s, c, b.futures, Interrupted);
      assert b' == b.(futures := b.futures, lockedBy := None, calls := b'.calls);
      assert SetStage(mid, c, Cancelled).callers == SetStage(SetBatch(s, s.callers[c].batch, b'), c, Cancelled).callers;
    } else {
      SetStageIsUpdate(s, c, Cancelled);
      UpdateOk(cfg, s, c, b, Cancelled);
    }
  }

  lemma FuncSetOk<V, R>(cfg: Config, s: State<V, R>, c: nat, i: nat, o: Outcome<R>)
    requires Inv(cfg, s) && Enabled(cfg, s, FuncSet(c, i, o))
    ensures Inv(cfg, Apply(cfg, s, FuncSet(c, i, o)))
  {
    assert CallerOk(s, c);
    var b := BatchOf(s, c);
    assert BatchOk(cfg, s.now, b, s.callers[c].batch == s.open);
    var b' := b.(futures := b.futures[i := Done(o)]);
    var s' := SetBatch(s, s.callers[c].batch, b');
    UpdateOk(cfg, s, c, b', s.callers[c].stage);
    assert SetStage(s', c, s.callers[c].stage).callers == s'.callers;
  }

  lemma StepOk<V, R>(cfg: Config, s: State<V, R>, e: Event<V, R>)
    requires cfg.Valid() && Inv(cfg, s) && Enabled(cfg, s, e)
    ensures Inv(cfg, Apply(cfg, s, e))
  {
    match e
    case Tick(t) => TickOk(cfg, s, t);
    case Arrive(arg) => JoinedOk(cfg, s, arg);
    case Wake(_) => WaitOverOk(cfg, s, e);
    case Timeout(_) => WaitOverOk(cfg, s, e);
    case Grant(c) => GrantedOk(cfg, s, c);
    case FuncSet(c, i, o) => FuncSetOk(cfg, s, c, i, o);
    case FuncReturn(c, rs) =>
      EndedOk(cfg, s, c, Failed(Zipped(BatchOf(s, c).futures, rs), ResultNotSet), Returned(rs));
    case FuncRaise(c, rs, f) =>
      EndedOk(cfg, s, c, Failed(Zipped(BatchOf(s, c).futures, rs), f), Raised(rs, f));
    case Cancel(c) => CancelOk(cfg, s, c);
  }

  // ------------------------------------------------------------------ whole runs

  ghost predicate IsRun<V, R>(cfg: Config, s: State<V, R>, es: seq<Event<V, R>>)
    decreases |es|
  {
    && Shaped(s)
    && (es != [] ==> Enabled(cfg, s, es[0]) && IsRun(cfg, Apply(cfg, s, es[0]), es[1..]))
  }

  ghost function After<V, R>(cfg: Config, s: State<V, R>, es: seq<Event<V, R>>): State<V, R>
    requires IsRun(cfg, s, es)
    decreases |es|
  {
    if es == [] then s else After(cfg, Apply(cfg, s, es[0]), es[1..])
  }

  /** At every reachable state: one open batch, sealed batches full or overdue and never larger
      than `max_count`, one execution per batch at a time, and no caller suspended in the final
      `await future`. */
  lemma {:induction false} EveryRunKeepsInv<V, R>(cfg: Config, s: State<V, R>, es: seq<Event<V, R>>)
    requires cfg.Valid() && Inv(cfg, s) && IsRun(cfg, s, es)
    ensures Inv(cfg, After(cfg, s, es))
    decreases |es|
  {
    if es != [] {
      StepOk(cfg, s, es[0]);
      EveryRunKeepsInv(cfg, Apply(cfg, s, es[0]), es[1..]);
    }
  }

  /** `s'` is a later state than `s`: sealed batches have not grown, a batch keeps the time of its first
      call, done futures have not changed, calls are only appended, and ended callers stay ended. */
  ghost predicate Later<V, R>(s: State<V, R>, s': State<V, R>) {
    && |s.batches| <= |s'.batches| && |s.callers| <= |s'.callers| && s.now <= s'.now && s.open <= s'.open
    && (forall b :: 0 <= b < |s.batches| ==> LaterBatch(s.batches[b], s'.batches[b]))
    && (forall b :: 0 <= b < |s.batches| && b < s.open ==> s'.batches[b].args == s.batches[b].args)
    && (forall c :: 0 <= c < |s.callers| ==> LaterCaller(s.callers[c], s'.callers[c]))
  }

  ghost predicate LaterBatch<V, R>(b: Batch<V, R>, b': Batch<V, R>) {
    && b.args <= b'.args && b.calls <= b'.calls && |b.futures| <= |b'.futures|
    && (b.firstCallAt.Some? ==> b'.firstCallAt == b.firstCallAt)
    && (forall i :: 0 <= i < |b.futures| && b.futures[i].Done? ==> b'.futures[i] == b.futures[i])
  }

  ghost predicate LaterCaller<V, R>(me: Caller<V, R>, me': Caller<V, R>) {
    && me'.arg == me.arg && me'.batch == me.batch && me'.index == me.index
    && (Over(me.stage) ==> me'.stage == me.stage)
  }

  predicate Over<V, R>(stage: Stage<V, R>) {
    stage.Finished? || stage.Cancelled?
  }

  lemma UpdateIsLater<V, R>(s: State<V, R>, c: nat, b': Batch<V, R>, stage: Stage<V, R>)
    requires Shaped(s) && c < |s.callers| && !Over(s.callers[c].stage)
    requires LaterBatch(BatchOf(s, c), b') && b'.args == BatchOf(s, c).args
    ensures Later(s, SetStage(SetBatch(s, s.callers[c].batch, b'), c, stage))
  {
  }

  lemma StepIsLater<V, R>(cfg: Config, s: State<V, R>, e: Event<V, R>)
    requires Shaped(s) && s.open == |s.batches| - 1 && Enabled(cfg, s, e)
    ensures Later(s, Apply(cfg, s, e))
  {
    hide Later, Joined, Granted, Ended;
    match e
    case Tick(t) => TickIsLater(s, t);
    case Arrive(arg) => JoinedIsLater(cfg, s, arg);
    case Wake(c) => WaitOverIsLater(s, c);
    case Timeout(c) => WaitOverIsLater(s, c);
    case Grant(c) => GrantedIsLater(s, c);
    case FuncSet(c, i, o) => SettingIsLater(s, c, i, o);
    case FuncReturn(c, rs) =>
      EndedIsLater(s, c, Failed(Zipped(BatchOf(s, c).futures, rs), ResultNotSet), Returned(rs));
    case FuncRaise(c, rs, f) =>
      EndedIsLater(s, c, Failed(Zipped(BatchOf(s, c).futures, rs), f), Raised(rs, f));
    case Cancel(c) =>
      if s.callers[c].stage.Executing? {
        InterruptIsLater(s, c);
      } else {
        LeavingIsLater(s, c);
      }
  }

  lemma TickIsLater<V, R>(s: State<V, R>, t: real)
    requires Shaped(s) && s.now <= t
    ensures Later(s, s.(now := t))
  {
  }

  lemma SettingIsLater<V, R>(s: State<V, R>, c: nat, i: nat, o: Outcome<R>)
    requires Shaped(s) && c < |s.callers| && i < |BatchOf(s, c).futures| && BatchOf(s, c).futures[i].Pending?
    ensures var b := BatchOf(s, c);
            Later(s, SetBatch(s, s.callers[c].batch, b.(futures := b.futures[i := Done(o)])))
  {
  }

  lemma LeavingIsLater<V, R>(s: State<V, R>, c: nat)
    requires Shaped(s) && c < |s.callers| && !Over(s.callers[c].stage)
    ensures Later(s, SetStage(s, c, Cancelled))
  {
  }

  lemma InterruptIsLater<V, R>(s: State<V, R>, c: nat)
    requires Shaped(s) && c < |s.callers| && s.callers[c].stage.Executing?
    ensures Later(s, SetStage(Ended(s, c, BatchOf(s, c).futures, Interrupted), c, Cancelled))
  {
    var b := BatchOf(s, c);
    var b' := b.(lockedBy := None, calls := b.calls + [Call(s.callers[c].stage.given, Interrupted)]);
    UpdateIsLater(s, c, b', Cancelled);
    assert SetStage(Ended(s, c, b.futures, Interrupted), c, Cancelled)
        == SetStage(SetBatch(s, s.callers[c].batch, b'), c, Cancelled);
  }

  lemma JoinedIsLater<V, R>(cfg: Config, s: State<V, R>, arg: V)
    requires Shaped(s) && s.open == |s.batches| - 1
    ensures Later(s, Joined(cfg, s, arg))
  {
  }

  lemma WaitOverIsLater<V, R>(s: State<V, R>, c: nat)
    requires Shaped(s) && c < |s.callers| && s.callers[c].stage.Waiting?
    ensures Later(s, SetStage(ClearIfOpen(s, s.callers[c].batch), c, Locking))
  {
  }

  lemma GrantedIsLater<V, R>(s: State<V, R>, c: nat)
    requires Shaped(s) && c < |s.callers| && !Over(s.callers[c].stage)
    ensures Later(s, Granted(s, c))
  {
    var b := BatchOf(s, c);
    var own := b.futures[s.callers[c].index];
    if own.Done? {
      SetStageIsUpdate(s, c, AfterLock(own));
      UpdateIsLater(s, c, b, AfterLock(own));
    } else {
      UpdateIsLater(s, c, b.(lockedBy := Some(c)), Executing(b.args));
    }
  }

  lemma EndedIsLater<V, R>(s: State<V, R>, c: nat, futures: seq<Future<R>>, ending: Ending<R>)
    requires Shaped(s) && c < |s.callers| && s.callers[c].stage.Executing?
    requires |futures| == |BatchOf(s, c).futures|
    requires forall i :: 0 <= i < |futures| && BatchOf(s, c).futures[i].Done? ==> futures[i] == BatchOf(s, c).futures[i]
    ensures Later(s, Ended(s, c, futures, ending))
  {
    var b := BatchOf(s, c);
    var b' := b.(futures := futures, lockedBy := None,
                 calls := b.calls + [Call(s.callers[c].stage.given, ending)]);
    UpdateIsLater(s, c, b', AfterLock(futures[s.callers[c].index]));
  }

  /** A sealed batch never grows, and a future that is done keeps its outcome for ever. */
  lemma {:induction false} EveryRunIsLater<V, R>(cfg: Config, s: State<V, R>, es: seq<Event<V, R>>)
    requires cfg.Valid() && Inv(cfg, s) && IsRun(cfg, s, es)
    ensures Later(s, After(cfg, s, es))
    decreases |es|
  {
    if es != [] {
      StepOk(cfg, s, es[0]);
      StepIsLater(cfg, s, es[0]);
      EveryRunIsLater(cfg, Apply(cfg, s, es[0]), es[1..]);
      LaterTransitive(s, Apply(cfg, s, es[0]), After(cfg, s, es));
    }
  }

  lemma LaterTransitive<V, R>(s: State<V, R>, t: State<V, R>, u: State<V, R>)
    requires Later(s, t) && Later(t, u)
    ensures Later(s, u)
  {
    forall b | 0 <= b < |s.batches|
      ensures LaterBatch(s.batches[b], u.batches[b])
    {
      assert LaterBatch(s.batches[b], t.batches[b]) && LaterBatch(t.batches[b], u.batches[b]);
    }
  }

  // ------------------------------------------------------------- when a batch is ripe

  /** An arrival joins the open batch as its last member.  If it is the first, the leeway of the batch
      begins now; if it fills the batch, it does not wait. */
  lemma Arrival<V, R>(cfg: Config, s: State<V, R>, arg: V)
    requires cfg.Valid() && Inv(cfg, s)
    ensures var u, n := Apply(cfg, s, Arrive(arg)), |s.batches[s.open].args|;
            && s.open < |u.batches| && |u.callers| == |s.callers| + 1
            && u.batches[s.open].args == s.batches[s.open].args + [arg]
            && u.batches[s.open].firstCallAt == (if n == 0 then Some(s.now) else s.batches[s.open].firstCallAt)
            && u.callers[|s.callers|].batch == s.open && u.callers[|s.callers|].index == n
            && u.callers[|s.callers|].stage == (if cfg.maxCount == Some(n + 1) then Locking else Waiting)
            && (u.open != s.open <==> cfg.maxCount == Some(n + 1))
  {
    assert BatchOk(cfg, s.now, s.batches[s.open], true);
  }

  /** Over every run: the leeway of a batch begins with its first call, and nothing that happens later,
      further arrivals included, moves it; a member that waits can time out exactly from its end on, and
      can wake up exactly if the batch is full. */
  lemma LeewayBeginsWithTheFirstCall<V, R>(cfg: Config, s: State<V, R>, arg: V, es: seq<Event<V, R>>, c: nat)
    requires cfg.Valid() && Inv(cfg, s) && s.batches[s.open].args == []
    requires IsRun(cfg, Apply(cfg, s, Arrive(arg)), es)
    requires var u := After(cfg, Apply(cfg, s, Arrive(arg)), es);
             c < |u.callers| && u.callers[c].batch == s.open && u.callers[c].stage.Waiting?
    ensures var u := After(cfg, Apply(cfg, s, Arrive(arg)), es);
            && Shaped(u) && BatchOf(u, c).firstCallAt == Some(s.now)
            && (Enabled(cfg, u, Timeout(c)) <==> s.now + cfg.leeway <= u.now)
            && (Enabled(cfg, u, Wake(c)) <==> cfg.maxCount == Some(|BatchOf(u, c).args|))
  {
    StepOk(cfg, s, Arrive(arg));
    Arrival(cfg, s, arg);
    var s1 := Apply(cfg, s, Arrive(arg));
    EveryRunKeepsInv(cfg, s1, es);
    EveryRunIsLater(cfg, s1, es);
    var u := After(cfg, s1, es);
    assert LaterBatch(s1.batches[s.open], u.batches[s.open]);
    assert BatchOk(cfg, u.now, u.batches[s.open], s.open == u.open);
  }

  // ----------------------------------------------- batching refines pointwise calls

  /** What an execution that ended this way leaves in future `i`. */
  function Verdict<R>(ending: Ending<R>, i: nat): Outcome<R>
    requires !ending.Interrupted?
  {
    match ending
    case Returned(rs) => if i < |rs| then Value(rs[i]) else Error(ResultNotSet)
    case Raised(rs, f) => if i < |rs| then Value(rs[i]) else Error(f)
  }

  /** The futures of a batch are exactly what its one uninterrupted call says. */
  ghost predicate Explained<V, R>(b: Batch<V, R>) {
    forall i :: 0 <= i < |b.futures| ==>
      b.futures[i] == if Settled(b) then Done(Verdict(b.calls[|b.calls| - 1].ending, i)) else Pending
  }

  ghost predicate AllExplained<V, R>(s: State<V, R>) {
    forall b :: 0 <= b < |s.batches| ==> Explained(s.batches[b])
  }

  lemma StepExplained<V, R>(cfg: Config, s: State<V, R>, e: Event<V, R>)
    requires cfg.Valid() && Inv(cfg, s) && Enabled(cfg, s, e) && !e.FuncSet?
    requires AllExplained(s)
    ensures AllExplained(Apply(cfg, s, e))
  {
    hide LocksHeld, SlotsOwned;
    assert BatchOk(cfg, s.now, s.batches[s.open], true);
    if e.FuncReturn? {
      EndedExplained(cfg, s, e.caller, Failed(Zipped(BatchOf(s, e.caller).futures, e.results), ResultNotSet),
                     Returned(e.results));
    } else if e.FuncRaise? {
      EndedExplained(cfg, s, e.caller, Failed(Zipped(BatchOf(s, e.caller).futures, e.results), e.failure),
                     Raised(e.results, e.failure));
    } else if e.Cancel? && s.callers[e.caller].stage.Executing? {
      assert CallerOk(s, e.caller) && BatchOk(cfg, s.now, BatchOf(s, e.caller), s.callers[e.caller].batch == s.open);
      EndedExplained(cfg, s, e.caller, BatchOf(s, e.caller).futures, Interrupted);
    }
  }

  /** While a call is in progress every future is pending, so its ending decides them all. */
  lemma EndedExplained<V, R>(cfg: Config, s: State<V, R>, c: nat, futures: seq<Future<R>>, ending: Ending<R>)
    requires Inv(cfg, s) && AllExplained(s) && c < |s.callers| && s.callers[c].stage.Executing?
    requires |futures| == |BatchOf(s, c).futures|
    requires forall i :: 0 <= i < |futures| && BatchOf(s, c).futures[i].Pending? ==>
               futures[i] == if ending.Interrupted? then Pending else Done(Verdict(ending, i))
    ensures AllExplained(Ended(s, c, futures, ending))
  {
    assert CallerOk(s, c);
    assert BatchOk(cfg, s.now, BatchOf(s, c), s.callers[c].batch == s.open);
    assert Explained(BatchOf(s, c)) && !Settled(BatchOf(s, c));
  }

  ghost predicate WrapperOnly<V, R>(es: seq<Event<V, R>>) {
    forall k :: 0 <= k < |es| ==> !es[k].FuncSet?
  }

  lemma {:induction false} EveryRunExplained<V, R>(cfg: Config, s: State<V, R>, es: seq<Event<V, R>>)
    requires cfg.Valid() && Inv(cfg, s) && IsRun(cfg, s, es) && WrapperOnly(es)
    requires AllExplained(s)
    ensures AllExplained(After(cfg, s, es))
    decreases |es|
  {
    if es != [] {
      StepOk(cfg, s, es[0]);
      StepExplained(cfg, s, es[0]);
      EveryRunExplained(cfg, Apply(cfg, s, es[0]), es[1..]);
    }
  }

  /** Over every interleaving: a caller that ends got entry `index` of what the one uninterrupted
      call of the function made of the caller's own batch, in which its argument is at `index`. */
  lemma CallerGetsItsOwnEntry<V, R>(cfg: Config, es: seq<Event<V, R>>, c: nat)
    requires cfg.Valid() && IsRun(cfg, Init<V, R>(), es) && WrapperOnly(es)
    requires c < |After(cfg, Init(), es).callers| && After(cfg, Init(), es).callers[c].stage.Finished?
    ensures var s := After(cfg, Init(), es);
            && Inv(cfg, s)
            && Settled(BatchOf(s, c))
            && var last := BatchOf(s, c).calls[|BatchOf(s, c).calls| - 1];
            && last.args == BatchOf(s, c).args
            && last.args[s.callers[c].index] == s.callers[c].arg
            && s.callers[c].stage.outcome == Verdict(last.ending, s.callers[c].index)
  {
    InitOk<V, R>(cfg);
    EveryRunKeepsInv(cfg, Init(), es);
    EveryRunExplained(cfg, Init(), es);
    var s := After(cfg, Init(), es);
    assert CallerOk(s, c);
    assert Explained(BatchOf(s, c));
    assert BatchOk(cfg, s.now, BatchOf(s, c), s.callers[c].batch == s.open);
  }

  function Map<V, R>(f: V -> R, xs: seq<V>): seq<R> {
    seq(|xs|, i requires 0 <= i < |xs| => f(xs[i]))
  }

  /** What the function yielded was `f` of its arguments, in order: all of it if it returned, a part of
      it if it raised on the way. */
  ghost predicate Maps<V, R>(call: Call<V, R>, f: V -> R) {
    match call.ending
    case Returned(rs) => rs == Map(f, call.args)
    case Raised(rs, _) => rs <= Map(f, call.args)
    case Interrupted => true
  }

  ghost predicate FunctionMaps<V, R>(s: State<V, R>, f: V -> R) {
    forall b, k :: 0 <= b < |s.batches| && 0 <= k < |s.batches[b].calls| ==> Maps(s.batches[b].calls[k], f)
  }

  /** The promise of the decorator: if the function maps `f` over its arguments, `aggregate(x)` returns
      `f(x)`, unless the call of its batch raised before it had yielded the caller's result. */
  lemma BatchingRefinesPointwise<V, R>(cfg: Config, es: seq<Event<V, R>>, f: V -> R, c: nat)
    requires cfg.Valid() && IsRun(cfg, Init<V, R>(), es) && WrapperOnly(es)
    requires FunctionMaps(After(cfg, Init(), es), f)
    requires c < |After(cfg, Init(), es).callers| && After(cfg, Init(), es).callers[c].stage.Finished?
    ensures var s := After(cfg, Init(), es);
            && Shaped(s)
            && var b, me := BatchOf(s, c), s.callers[c];
            && b.calls != []
            && match b.calls[|b.calls| - 1].ending
               case Returned(_) => me.stage.outcome == Value(f(me.arg))
               case Raised(rs, failure) =>
                 me.stage.outcome == if me.index < |rs| then Value(f(me.arg)) else Error(failure)
               case Interrupted => false
  {
    CallerGetsItsOwnEntry(cfg, es, c);
    var s := After(cfg, Init(), es);
    var me := s.callers[c];
    var last := BatchOf(s, c).calls[|BatchOf(s, c).calls| - 1];
    if last.ending.Returned? {
      assert last == s.batches[me.batch].calls[|BatchOf(s, c).calls| - 1];
      assert Map(f, last.args)[me.index] == f(me.arg);
    }
  }

  // ------------------------------------------------------------ every caller ends

  function Weight<V, R>(stage: Stage<V, R>): nat {
    match stage
    case Waiting => 3
    case Locking => 2
    case Executing(_) => 1
    case _ => 0
  }

  function WeightOf<V, R>(me: Caller<V, R>): nat {
    Weight(me.stage)
  }

  function Remaining<V, R>(callers: seq<Caller<V, R>>): nat {
    Sum(WeightOf<V, R>, callers)
  }

  predicate Progress<V, R>(e: Event<V, R>) {
    !e.Tick? && !e.Arrive? && !e.FuncSet?
  }

  function ProgressCount<V, R>(es: seq<Event<V, R>>): nat {
    if es == [] then 0 else (if Progress(es[0]) then 1 else 0) + ProgressCount(es[1..])
  }

  function ArrivalCount<V, R>(es: seq<Event<V, R>>): nat {
    if es == [] then 0 else (if es[0].Arrive? then 1 else 0) + ArrivalCount(es[1..])
  }

  lemma OneCallerMoves<V, R>(cfg: Config, s: State<V, R>, e: Event<V, R>)
    requires Shaped(s) && Enabled(cfg, s, e) && Progress(e)
    ensures |Apply(cfg, s, e).callers| == |s.callers|
    ensures Apply(cfg, s, e).callers == s.callers[e.caller := Apply(cfg, s, e).callers[e.caller]]
    ensures Weight(Apply(cfg, s, e).callers[e.caller].stage) < Weight(s.callers[e.caller].stage)
  {
  }

  lemma StepDecreases<V, R>(cfg: Config, s: State<V, R>, e: Event<V, R>)
    requires Shaped(s) && Enabled(cfg, s, e)
    ensures Progress(e) ==> Remaining(Apply(cfg, s, e).callers) < Remaining(s.callers)
    ensures e.Arrive? ==> Remaining(Apply(cfg, s, e).callers) <= Remaining(s.callers) + 3
    ensures e.Tick? || e.FuncSet? ==> Apply(cfg, s, e).callers == s.callers
  {
    var s' := Apply(cfg, s, e);
    if e.Arrive? {
      assert s'.callers[..|s.callers|] == s.callers;
    } else if Progress(e) {
      OneCallerMoves(cfg, s, e);
      SumUpdate(WeightOf<V, R>, s.callers, e.caller, s'.callers[e.caller]);
    }
  }

  /** Each arrival pays for at most three later steps of its caller: retries after a
      cancelled execution included, a run cannot keep callers busy without new arrivals. */
  lemma {:induction false} ProgressIsBounded<V, R>(cfg: Config, s: State<V, R>, es: seq<Event<V, R>>)
    requires cfg.Valid() && Inv(cfg, s) && IsRun(cfg, s, es)
    ensures ProgressCount(es) + Remaining(After(cfg, s, es).callers) <= Remaining(s.callers) + 3 * ArrivalCount(es)
    decreases |es|
  {
    if es != [] {
      StepOk(cfg, s, es[0]);
      StepDecreases(cfg, s, es[0]);
      ProgressIsBounded(cfg, Apply(cfg, s, es[0]), es[1..]);
    }
  }

  /** While some caller has not ended, letting time pass enables a step of some caller
      of the same batch: nobody waits for ever. */
  lemma NobodyIsStuck<V, R>(cfg: Config, s: State<V, R>, c: nat) returns (t: real, e: Event<V, R>)
    requires cfg.Valid() && Inv(cfg, s)
    requires c < |s.callers| && !Over(s.callers[c].stage)
    ensures s.now <= t && Inv(cfg, s.(now := t)) && Progress(e) && !e.Cancel?
    ensures Enabled(cfg, s.(now := t), e)
    ensures e.caller < |s.callers| && s.callers[e.caller].batch == s.callers[c].batch
  {
    assert CallerOk(s, c);
    var b := BatchOf(s, c);
    assert BatchOk(cfg, s.now, b, s.callers[c].batch == s.open);
    t := s.now;
    if s.callers[c].stage.Waiting? {
      var deadline := b.firstCallAt.value + cfg.leeway;
      t := if deadline <= s.now then s.now else deadline;
      e := Timeout(c);
    } else if s.callers[c].stage.Locking? && b.lockedBy.None? {
      e := Grant(c);
    } else {
      e := FuncReturn(b.lockedBy.value, []);
    }
    TickOk(cfg, s, t);
  }

  lemma Before<V, R>(cfg: Config, s: State<V, R>, e: Event<V, R>, es: seq<Event<V, R>>)
    returns (longer: seq<Event<V, R>>)
    requires Shaped(s) && Enabled(cfg, s, e) && IsRun(cfg, Apply(cfg, s, e), es)
    ensures longer == [e] + es && IsRun(cfg, s, longer)
    ensures After(cfg, s, longer) == After(cfg, Apply(cfg, s, e), es)
  {
    longer := [e] + es;
    assert longer[1..] == es;
  }

  ghost predicate AllOver<V, R>(s: State<V, R>) {
    forall c :: 0 <= c < |s.callers| ==> Over(s.callers[c].stage)
  }

  /** The step neither brings a new caller nor cancels one. */
  predicate Ordinary<V, R>(e: Event<V, R>) {
    !e.Arrive? && !e.Cancel? && !e.FuncSet?
  }

  /** From every reachable state, without new arrivals and without cancelling anybody, every caller can
      come to its end: there is a run after which all of them are. */
  lemma {:induction false} EveryoneCanEnd<V, R>(cfg: Config, s: State<V, R>) returns (es: seq<Event<V, R>>)
    requires cfg.Valid() && Inv(cfg, s)
    ensures IsRun(cfg, s, es) && AllOver(After(cfg, s, es))
    ensures forall i :: 0 <= i < |es| ==> Ordinary(es[i])
    ensures |After(cfg, s, es).callers| == |s.callers|
    decreases Remaining(s.callers)
  {
    es := [];
    if c: nat :| c < |s.callers| && !Over(s.callers[c].stage) {
      var t, e := NobodyIsStuck(cfg, s, c);
      var s1 := s.(now := t);
      assert s1 == Apply(cfg, s, Tick(t));
      StepOk(cfg, s1, e);
      StepDecreases(cfg, s1, e);
      OneCallerMoves(cfg, s1, e);
      hide Inv, Apply, Remaining, Enabled, AllOver;
      es := EveryoneCanEnd(cfg, Apply(cfg, s1, e));
      es := Before(cfg, s1, e, es);
      es := Before(cfg, s, Tick(t), es);
    }
  }
}
