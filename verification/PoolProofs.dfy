/** Conservation and exclusive ownership in the connection pool, over every run. */
module PoolProofs {
  import opened Basics
  import opened PoolProtocol

  /** The client that a step moves. */
  predicate OfClient(e: Event) {
    !e.Tick? && !e.Acquire? && !e.Destroy?
  }

  lemma CountsUpdate(clients: seq<Client>, c: nat, client: Client)
    requires c < |clients|
    ensures CreatingCount(clients[c := client]) == CreatingCount(clients) - IsCreating(clients[c]) + IsCreating(client)
    ensures HoldingCount(clients[c := client]) == HoldingCount(clients) - IsHolding(clients[c]) + IsHolding(client)
  {
    SumUpdate(IsCreating, clients, c, client);
    SumUpdate(IsHolding, clients, c, client);
  }

  lemma CountsAppend(clients: seq<Client>, client: Client)
    ensures CreatingCount(clients + [client]) == CreatingCount(clients) + IsCreating(client)
    ensures HoldingCount(clients + [client]) == HoldingCount(clients) + IsHolding(client)
  {
    SumAppend(IsCreating, clients, client);
    SumAppend(IsHolding, clients, client);
  }

  lemma StepConserves(cfg: Config, s: State, e: Event)
    requires Conserved(cfg, s) && Enabled(cfg, s, e)
    ensures Conserved(cfg, Apply(cfg, s, e))
  {
    hide CreatingCount, HoldingCount;
    var s' := Apply(cfg, s, e);
    if OfClient(e) {
      assert s'.clients == s.clients[e.client := s'.clients[e.client]];
      CountsUpdate(s.clients, e.client, s'.clients[e.client]);
    } else if e.Acquire? {
      CountsAppend(s.clients, Entry(s).0);
    }
  }

  /** One client gets another state, the idle queue loses its head or gains an instance. */
  lemma MoveExclusive(s: State, c: nat, client: Client, idle: seq<nat>)
    requires Exclusive(s) && c < |s.clients|
    requires || idle == s.idle || (s.idle != [] && idle == s.idle[1..])
             || exists i :: idle == s.idle + [i] && Free(s, c, i)
    requires Holds(client) ==>
               (Holds(s.clients[c]) && client.instance == s.clients[c].instance && idle == s.idle)
               || (s.idle != [] && client.instance == s.idle[0] && idle == s.idle[1..])
    requires |idle| > |s.idle| ==> !Holds(client)
    ensures Exclusive(SetClient(s, c, client).(idle := idle))
  {
  }

  /** Nobody but client `c` has the instance. */
  ghost predicate Free(s: State, c: nat, i: nat) {
    && (forall k :: 0 <= k < |s.idle| ==> s.idle[k] != i)
    && (forall d :: 0 <= d < |s.clients| && d != c && Holds(s.clients[d]) ==> s.clients[d].instance != i)
  }

  lemma NewIsFree(s: State, c: nat)
    requires Known(s)
    ensures Free(s, c, |s.born|)
  {
  }

  lemma OwnIsFree(s: State, c: nat)
    requires Exclusive(s) && c < |s.clients| && Holds(s.clients[c])
    ensures Free(s, c, s.clients[c].instance)
  {
  }

  lemma SameExclusive(s: State, u: State)
    requires Exclusive(s) && u.clients == s.clients && u.idle == s.idle
    ensures Exclusive(u)
  {
  }

  lemma AppendExclusive(s: State, u: State, client: Client)
    requires Exclusive(s) && u.clients == s.clients + [client] && u.idle == s.idle && !Holds(client)
    ensures Exclusive(u)
  {
  }

  lemma StepExclusive(cfg: Config, s: State, e: Event)
    requires Exclusive(s) && Known(s) && Enabled(cfg, s, e)
    ensures Exclusive(Apply(cfg, s, e))
  {
    hide Exclusive, Known, Free;
    var s' := Apply(cfg, s, e);
    if OfClient(e) {
      if e.Created? {
        NewIsFree(s, e.client);
      } else if e.Release? {
        OwnIsFree(s, e.client);
      }
      MoveExclusive(s, e.client, s'.clients[e.client], s'.idle);
      SameExclusive(SetClient(s, e.client, s'.clients[e.client]).(idle := s'.idle), s');
    } else if e.Acquire? {
      AppendExclusive(s, s', Entry(s).0);
    } else {
      SameExclusive(s, s');
    }
  }

  lemma StepKnown(cfg: Config, s: State, e: Event)
    requires Known(s) && Enabled(cfg, s, e)
    ensures Known(Apply(cfg, s, e))
  {
    if OfClient(e) {
      assert Holds(s.clients[e.client]) ==> s.clients[e.client].instance < |s.born|;
    } else {
      assert e.Destroy? ==> s.bin[0] < |s.born|;
    }
  }

  lemma InUseUpdate(s: State, c: nat, client: Client)
    requires Exclusive(s) && UsedOk(s) && c < |s.clients|
    ensures forall i :: InUse(s.clients[c := client], i) <==>
              client == Using(i) || (i in s.used && s.clients[c] != Using(i))
  {
    forall i: nat
      ensures InUse(s.clients[c := client], i) <==>
                client == Using(i) || (i in s.used && s.clients[c] != Using(i))
    {
      var clients' := s.clients[c := client];
      if InUse(clients', i) {
        var d :| 0 <= d < |clients'| && clients'[d] == Using(i);
        assert d != c ==> s.clients[d] == Using(i);
      }
      if client == Using(i) {
        assert clients'[c] == Using(i);
      }
      if i in s.used && s.clients[c] != Using(i) {
        var d :| 0 <= d < |s.clients| && s.clients[d] == Using(i);
        assert clients'[d] == Using(i);
      }
    }
  }

  lemma StepUsed(cfg: Config, s: State, e: Event)
    requires Exclusive(s) && UsedOk(s) && Enabled(cfg, s, e)
    ensures UsedOk(Apply(cfg, s, e))
  {
    hide InUse;
    if OfClient(e) {
      var s' := Apply(cfg, s, e);
      assert s'.clients == s.clients[e.client := s'.clients[e.client]];
      InUseUpdate(s, e.client, s'.clients[e.client]);
      if s.clients[e.client].Checking? {
        CheckedIsNotUsed(s, e.client);
      }
    } else if e.Acquire? {
      InUseAppend(s.clients, Entry(s).0);
    }
  }

  lemma CheckedIsNotUsed(s: State, c: nat)
    requires Exclusive(s) && UsedOk(s) && c < |s.clients| && s.clients[c].Checking?
    ensures s.clients[c].instance !in s.used
  {
  }

  lemma InUseAppend(clients: seq<Client>, client: Client)
    requires !client.Using?
    ensures forall i :: InUse(clients + [client], i) <==> InUse(clients, i)
  {
    forall i: nat
      ensures InUse(clients + [client], i) <==> InUse(clients, i)
    {
      if InUse(clients, i) {
        var d :| 0 <= d < |clients| && clients[d] == Using(i);
        assert (clients + [client])[d] == Using(i);
      }
    }
  }

  lemma StepOk(cfg: Config, s: State, e: Event)
    requires Inv(cfg, s) && Enabled(cfg, s, e)
    ensures Inv(cfg, Apply(cfg, s, e))
  {
    hide Conserved, Exclusive, Known, UsedOk;
    StepConserves(cfg, s, e);
    StepExclusive(cfg, s, e);
    StepKnown(cfg, s, e);
    StepUsed(cfg, s, e);
  }

  /** An instance that a client checks or uses is not idle and no other client has it. */
  lemma HolderIsAlone(cfg: Config, s: State, c: nat)
    requires Inv(cfg, s) && c < |s.clients| && Holds(s.clients[c])
    ensures Alone(s.clients, s.clients[c].instance, c) && s.clients[c].instance !in s.idle
    ensures s.clients[c].Checking? ==> s.clients[c].instance !in s.used
  {
    if s.clients[c].Checking? {
      CheckedIsNotUsed(s, c);
    }
  }

  lemma HolderOf(cfg: Config, s: State, i: nat) returns (c: nat)
    requires Inv(cfg, s) && i in s.used
    ensures c < |s.clients| && s.clients[c] == Using(i)
  {
    assert InUse(s.clients, i);
    c :| 0 <= c < |s.clients| && s.clients[c] == Using(i);
  }

  /** What a release does to the instance: afterwards no client has it. */
  lemma ReleaseFacts(cfg: Config, s: State, c: nat, later: real)
    requires Inv(cfg, s) && Enabled(cfg, s, Release(c, later))
    ensures var i, u := s.clients[c].instance, Apply(cfg, s, Release(c, later));
            && Alone(s.clients, i, c) && Alone(u.clients, i, |u.clients|) && i !in u.used
            && (u.idle == s.idle + [i] || u.bin == s.bin + [i])
            && u == Released(cfg, s, c, later)
  {
    HolderIsAlone(cfg, s, c);
  }

  /** What a check that raised leads to: the client uses an instance that is waiting to be destroyed. */
  lemma RaisedFacts(cfg: Config, s: State, c: nat)
    requires Inv(cfg, s) && Enabled(cfg, s, CheckRaised(c))
    ensures var i, u := s.clients[c].instance, Apply(cfg, s, CheckRaised(c));
            && i in u.used && i in u.bin && u.permits == s.permits + 1 && Alone(u.clients, i, c) && !Healthy(u)
  {
    HolderIsAlone(cfg, s, c);
    var u := Apply(cfg, s, CheckRaised(c));
    assert Holds(u.clients[c]) && Retired(u, s.clients[c].instance);
  }

  lemma NewIsNobodys(cfg: Config, s: State, c: nat)
    requires Inv(cfg, s) && c < |s.clients|
    ensures |s.born| !in s.idle && |s.born| !in s.used
    ensures Alone(s.clients[c := Waiting], |s.born|, |s.clients|)
  {
    assert forall i :: i in s.used ==> i < |s.born| by {
      forall i | i in s.used ensures i < |s.born| {
        var d := HolderOf(cfg, s, i);
        assert Holds(s.clients[d]);
      }
    }
  }

  lemma PermitsAreBounded(cfg: Config, s: State)
    requires Inv(cfg, s)
    ensures s.len + s.lost + CreatingCount(s.clients) <= cfg.maxSize
  {
  }

  lemma InitOk(cfg: Config)
    ensures Inv(cfg, Init(cfg)) && Healthy(Init(cfg))
  {
  }

  // ------------------------------------------------------------------ whole runs

  ghost predicate IsRun(cfg: Config, s: State, es: seq<Event>)
    decreases |es|
  {
    es != [] ==> Enabled(cfg, s, es[0]) && IsRun(cfg, Apply(cfg, s, es[0]), es[1..])
  }

  ghost function After(cfg: Config, s: State, es: seq<Event>): State
    requires IsRun(cfg, s, es)
    decreases |es|
  {
    if es == [] then s else After(cfg, Apply(cfg, s, es[0]), es[1..])
  }

  /** On every run, failing and cancelled creations and checks included: free permits, creations in
      flight, `_len` and permits lost to failed creations add up to `maxsize`, and no instance has
      two holders. */
  lemma {:induction false} EveryRunKeepsInv(cfg: Config, s: State, es: seq<Event>)
    requires Inv(cfg, s) && IsRun(cfg, s, es)
    ensures Inv(cfg, After(cfg, s, es))
    decreases |es|
  {
    if es != [] {
      StepOk(cfg, s, es[0]);
      EveryRunKeepsInv(cfg, Apply(cfg, s, es[0]), es[1..]);
    }
  }

  function Raises(es: seq<Event>): nat {
    if es == [] then 0 else (if es[0].CheckRaised? then 1 else 0) + Raises(es[1..])
  }

  function Cancels(es: seq<Event>): nat {
    if es == [] then 0 else (if es[0].CheckCancelled? then 1 else 0) + Cancels(es[1..])
  }

  function Failures(es: seq<Event>): nat {
    if es == [] then 0 else (if es[0].CreateFailed? then 1 else 0) + Failures(es[1..])
  }

  lemma {:induction false} RunCounts(cfg: Config, s: State, es: seq<Event>)
    requires IsRun(cfg, s, es)
    ensures After(cfg, s, es).raised == s.raised + Raises(es)
    ensures After(cfg, s, es).dropped == s.dropped + Cancels(es)
    ensures After(cfg, s, es).lost == s.lost + Failures(es)
    decreases |es|
  {
    if es != [] {
      RunCounts(cfg, Apply(cfg, s, es[0]), es[1..]);
    }
  }

  /** Free permits, creations in flight, live instances and the creations that failed, each of which loses
      its permit for good, add up to `maxsize` exactly on the runs in which as many checks raised as were
      cancelled; each check that raises makes room for one instance too many. */
  lemma LiveInstancesConservedIff(cfg: Config, s: State, es: seq<Event>)
    requires s == Init(cfg) && IsRun(cfg, s, es)
    ensures var u := After(cfg, s, es);
            var sum := u.permits + CreatingCount(u.clients) + LiveCount(u) + Failures(es);
            && sum == cfg.maxSize + Raises(es) - Cancels(es)
            && (sum == cfg.maxSize <==> Raises(es) == Cancels(es))
            && LiveCount(u) <= cfg.maxSize + Raises(es)
  {
    InitOk(cfg);
    EveryRunKeepsInv(cfg, s, es);
    RunCounts(cfg, s, es);
  }

  // --------------------------------------------- recycled instances in circulation

  /** The instance is idle, or a client checks or uses it. */
  ghost predicate Live(s: State, i: nat) {
    i in s.idle || exists c :: 0 <= c < |s.clients| && Holds(s.clients[c]) && s.clients[c].instance == i
  }

  lemma HealthyMeans(s: State)
    ensures Healthy(s) <==> forall i :: Live(s, i) ==> !Retired(s, i)
  {
    if forall i :: Live(s, i) ==> !Retired(s, i) {
      forall k | 0 <= k < |s.idle| ensures !Retired(s, s.idle[k]) {
        assert Live(s, s.idle[k]);
      }
      forall c | 0 <= c < |s.clients| && Holds(s.clients[c]) ensures !Retired(s, s.clients[c].instance) {
        assert Live(s, s.clients[c].instance);
      }
    }
  }

  /** What a step makes live was live before, or is new. */
  lemma StepLive(cfg: Config, s: State, e: Event, i: nat)
    requires Enabled(cfg, s, e) && Live(Apply(cfg, s, e), i)
    ensures Live(s, i) || (e.Created? && i == |s.born|)
  {
    var s' := Apply(cfg, s, e);
    if c :| 0 <= c < |s'.clients| && Holds(s'.clients[c]) && s'.clients[c].instance == i {
      if c < |s.clients| && Holds(s.clients[c]) {
        assert s.clients[c].instance == i;
      } else {
        assert s.idle[0] == i;
      }
    }
  }

  /** The instance that the step recycles, if it does. */
  predicate Recycles(cfg: Config, s: State, e: Event, i: nat) {
    match e
    case CheckRefused(c) => c < |s.clients| && s.clients[c] == Checking(i)
    case CheckRaised(c) => c < |s.clients| && s.clients[c] == Checking(i)
    case Release(c, later) =>
      && c < |s.clients| && s.clients[c] == Using(i)
      && cfg.recycle.Some? && Deadlines(s, i)[i] < later
    case _ => false
  }

  lemma StepRetired(cfg: Config, s: State, e: Event, i: nat)
    requires Enabled(cfg, s, e)
    ensures Retired(Apply(cfg, s, e), i) <==> Retired(s, i) || Recycles(cfg, s, e, i)
  {
    assert e.Destroy? ==> s.bin == [s.bin[0]] + s.bin[1..];
  }

  /** A recycled instance is out of circulation, unless its check raised. */
  lemma RecycledIsNotLive(cfg: Config, s: State, e: Event, i: nat)
    requires Exclusive(s) && Enabled(cfg, s, e) && Recycles(cfg, s, e, i)
    ensures Live(Apply(cfg, s, e), i) <==> e.CheckRaised?
  {
    var s' := Apply(cfg, s, e);
    if e.CheckRaised? {
      assert s'.clients[e.client] == Using(i);
    }
  }

  lemma StepHealthy(cfg: Config, s: State, e: Event)
    requires Inv(cfg, s) && Healthy(s) && Enabled(cfg, s, e)
    ensures Healthy(Apply(cfg, s, e)) <==> !e.CheckRaised?
  {
    assert !Retired(s, |s.born|);
    var s' := Apply(cfg, s, e);
    hide Healthy, Live, Retired, Conserved, UsedOk, Apply;
    HealthyMeans(s);
    HealthyMeans(s');
    if e.CheckRaised? {
      var i := s.clients[e.client].instance;
      StepRetired(cfg, s, e, i);
      RecycledIsNotLive(cfg, s, e, i);
    } else {
      forall i | Live(s', i) ensures !Retired(s', i) {
        StepLive(cfg, s, e, i);
        StepRetired(cfg, s, e, i);
        if Recycles(cfg, s, e, i) {
          RecycledIsNotLive(cfg, s, e, i);
        }
      }
    }
  }

  /** Healthy at every state of the run. */
  ghost predicate AlwaysHealthy(cfg: Config, s: State, es: seq<Event>)
    requires IsRun(cfg, s, es)
    decreases |es|
  {
    Healthy(s) && (es != [] ==> AlwaysHealthy(cfg, Apply(cfg, s, es[0]), es[1..]))
  }

  /** A recycled instance is never idle, checked or handed out exactly on the runs in which no
      instance check raises. */
  lemma {:induction false} HealthyIffNoCheckRaises(cfg: Config, s: State, es: seq<Event>)
    requires Inv(cfg, s) && Healthy(s) && IsRun(cfg, s, es)
    ensures AlwaysHealthy(cfg, s, es) <==> Raises(es) == 0
    decreases |es|
  {
    if es != [] {
      StepOk(cfg, s, es[0]);
      StepHealthy(cfg, s, es[0]);
      if !es[0].CheckRaised? {
        HealthyIffNoCheckRaises(cfg, Apply(cfg, s, es[0]), es[1..]);
      }
    }
  }

  // ------------------------------------------------------------------------ ages

  /** An instance that is not recycled has a deadline between one and two `recycle` after its birth. */
  ghost predicate AgesOk(cfg: Config, s: State) {
    cfg.recycle.Some? ==> forall i :: 0 <= i < |s.born| && !Retired(s, i) ==>
      i in s.times && s.born[i] + cfg.recycle.value <= s.times[i] < s.born[i] + 2.0 * cfg.recycle.value
  }

  lemma StepAges(cfg: Config, s: State, e: Event)
    requires Known(s) && AgesOk(cfg, s) && Enabled(cfg, s, e)
    ensures AgesOk(cfg, Apply(cfg, s, e))
  {
    var s' := Apply(cfg, s, e);
    assert e.Destroy? ==> s.bin == [s.bin[0]] + s.bin[1..];
    assert forall i :: Retired(s, i) ==> Retired(s', i);
  }

  lemma {:induction false} EveryRunKeepsAges(cfg: Config, s: State, es: seq<Event>)
    requires Inv(cfg, s) && AgesOk(cfg, s) && IsRun(cfg, s, es)
    ensures AgesOk(cfg, After(cfg, s, es))
    decreases |es|
  {
    if es != [] {
      StepOk(cfg, s, es[0]);
      StepAges(cfg, s, es[0]);
      EveryRunKeepsAges(cfg, Apply(cfg, s, es[0]), es[1..]);
    }
  }

  /** Over every run: a released instance goes to the idle queue or to the bin.  One that was not recycled
      before goes to the idle queue while it is younger than `recycle` and to the bin from twice that age
      on; without `recycle` none is recycled. */
  lemma ReleaseByAge(cfg: Config, s: State, es: seq<Event>, c: nat, later: real)
    requires s == Init(cfg) && IsRun(cfg, s, es) && Enabled(cfg, After(cfg, s, es), Release(c, later))
    ensures var u := After(cfg, s, es); var i := u.clients[c].instance; var u' := Released(cfg, u, c, later);
            && i < |u.born|
            && ((u'.idle == u.idle + [i] && u'.bin == u.bin) || (u'.bin == u.bin + [i] && u'.idle == u.idle))
            && (cfg.recycle.None? ==> u'.idle == u.idle + [i])
            && (cfg.recycle.Some? && !Retired(u, i) ==>
                  && (later <= u.born[i] + cfg.recycle.value ==> u'.idle == u.idle + [i])
                  && (u.born[i] + 2.0 * cfg.recycle.value <= later ==> u'.bin == u.bin + [i]))
  {
    InitOk(cfg);
    EveryRunKeepsInv(cfg, s, es);
    EveryRunKeepsAges(cfg, s, es);
    assert Holds(After(cfg, s, es).clients[c]);
  }
}
