/** Who ends how: what a cancellation of `start_services` reaches, whose exception wins, and what
    POST_START receivers do to it. */
module EntrypointFates {
  import opened Basics
  import opened EntrypointProtocol
  import opened EntrypointProofs

  // ------------------------------------------------------- a cancellation reaches everybody

  /** The startup will end with an exception, if it ends. */
  predicate Condemned(c: Startup) {
    Doomed(c) && (c.stage.Finished? ==> c.stage.exc.Some?)
  }

  lemma MoveCondemned(c: Startup, e: Event)
    requires OfStartup(e) && CanMove(c, e) && Condemned(c)
    ensures Condemned(Moved(c, e))
  {
  }

  lemma CancelCondemns(c: Startup)
    requires !c.stage.Finished?
    ensures Condemned(Cancelled(c))
  {
  }

  ghost predicate AllCondemned(cs: seq<Startup>, who: set<nat>) {
    forall i :: i in who ==> i < |cs| && Condemned(cs[i])
  }

  lemma StepCondemned(s: State, e: Event, who: set<nat>)
    requires Inv(s) && Enabled(s, e) && AllCondemned(s.startups, who)
    ensures AllCondemned(Apply(s, e).startups, who)
  {
    var t := Apply(s, e);
    hide Condemned, Moved, CanMove;
    if OfStartup(e) {
      if e.i in who {
        MoveCondemned(s.startups[e.i], e);
      }
    } else if t.startups != s.startups {
      forall i | i in who ensures i < |t.startups| && Condemned(t.startups[i]) {
        CancelKeepsCondemned(s.startups[i]);
      }
    }
  }

  lemma CancelKeepsCondemned(c: Startup)
    requires Condemned(c)
    ensures Condemned(Cancelled(c))
  {
  }

  /** The group will end with an exception, if it ends. */
  ghost predicate Sentenced(s: State) {
    match s.group
    case Gathering => s.marked || s.gather.FirstRaised? || (s.cancelRequested && s.gather.Pending?)
    case Cleaning(_, _, _) => true
    case PostStart(exc) => exc.Some?
    case Over(exc, _) => exc.Some?
  }

  lemma StepSentenced(s: State, e: Event)
    requires Inv(s) && Enabled(s, e) && Sentenced(s)
    ensures Sentenced(Apply(s, e))
  {
    hide Moved, CanMove, CancelAll, Unfinished, AllSeen;
  }

  /** While every startup is doomed, none is registered. */
  lemma StepRegistersNobody(s: State, e: Event)
    requires Inv(s) && Enabled(s, e) && AllDoomed(s.startups)
    ensures Apply(s, e).tasks == s.tasks && AllDoomed(Apply(s, e).startups)
  {
    StepIsOnward(s, e);
    if OfStartup(e) {
      assert StartupOk(s.startups[e.i], e.i in s.services, e.i in s.tasks);
      MoveIsOnward(s.startups[e.i], e);
    }
    hide Moved, CanMove, StartupOk, CancelAll, Doomed;
  }

  lemma {:induction false} RunSentenced(s: State, es: seq<Event>, t: State)
    requires Inv(s) && Runs(s, es, t) && Sentenced(s)
    ensures Sentenced(t)
    decreases |es|
  {
    if es != [] {
      StepOk(s, es[0]);
      StepSentenced(s, es[0]);
      hide Inv, Apply, Enabled, Sentenced;
      RunSentenced(Apply(s, es[0]), es[1..], t);
    }
  }

  lemma {:induction false} RunCondemned(s: State, es: seq<Event>, t: State, who: set<nat>)
    requires Inv(s) && Runs(s, es, t) && AllDoomed(s.startups) && AllCondemned(s.startups, who)
    ensures t.tasks == s.tasks && AllCondemned(t.startups, who)
    decreases |es|
  {
    if es != [] {
      StepOk(s, es[0]);
      StepRegistersNobody(s, es[0]);
      StepCondemned(s, es[0], who);
      hide Inv, Apply, Enabled, AllDoomed, AllCondemned;
      RunCondemned(Apply(s, es[0]), es[1..], t, who);
    }
  }

  /** However `start_services` goes on after it was cancelled while it gathered, it does not end without an
      exception. */
  lemma CancelledGroupRaises(s: State, es: seq<Event>, t: State)
    requires Inv(s) && s.group.Gathering? && Runs(Apply(s, CancelGroup), es, t)
    ensures t.group.Over? ==> t.group.exc.Some?
  {
    StepOk(s, CancelGroup);
    assert Sentenced(Apply(s, CancelGroup));
    RunSentenced(Apply(s, CancelGroup), es, t);
  }

  /** Cancelled while startups are still under way, it takes all of them along: none of them is registered
      any more, and each ends with an exception, if it ends. */
  lemma CancelReachesEveryStartup(s: State, es: seq<Event>, t: State)
    requires Inv(s) && s.group.Gathering? && s.gather.Pending? && Runs(Apply(s, CancelGroup), es, t)
    requires exists i :: 0 <= i < |s.startups| && !s.startups[i].stage.Finished?
    ensures t.tasks == s.tasks && |t.startups| == |s.startups|
    ensures forall i :: 0 <= i < |s.startups| && !s.startups[i].stage.Finished? ==>
              Doomed(t.startups[i]) && (t.startups[i].stage.Finished? ==> t.startups[i].stage.exc.Some?)
  {
    var u, who := Apply(s, CancelGroup), Unfinished(s.startups);
    var i :| 0 <= i < |s.startups| && !s.startups[i].stage.Finished?;
    assert i in who;
    StepOk(s, CancelGroup);
    CancelAllOk(s, u);
    forall j | j in who ensures j < |u.startups| && Condemned(u.startups[j]) {
      CancelCondemns(s.startups[j]);
    }
    RunCondemned(u, es, t, who);
    EveryRunIsOnward(u, es, t);
    forall j: nat | j < |s.startups| && !s.startups[j].stage.Finished? ensures Condemned(t.startups[j]) {
      assert j in who;
    }
  }

  // ----------------------------------------------------------------- the first failure wins

  /** The group fails with `exc`, unless it was cancelled meanwhile. */
  ghost predicate FailsWith(s: State, exc: Exc) {
    && s.gather == FirstRaised(exc)
    && (!s.group.Gathering? ==>
          Outgoing(s.group) == Some(exc) || (Outgoing(s.group) == Some(CancelledError) && s.disturbed))
  }

  lemma StepFailsWith(s: State, e: Event, exc: Exc)
    requires Inv(s) && Enabled(s, e) && FailsWith(s, exc)
    ensures FailsWith(Apply(s, e), exc)
  {
    hide Moved, CanMove, CancelAll, Unfinished, AllSeen;
  }

  lemma {:induction false} RunFailsWith(s: State, es: seq<Event>, t: State, exc: Exc)
    requires Inv(s) && Runs(s, es, t) && FailsWith(s, exc)
    ensures FailsWith(t, exc)
    decreases |es|
  {
    if es != [] {
      StepOk(s, es[0]);
      StepFailsWith(s, es[0], exc);
      hide Inv, Apply, Enabled, FailsWith;
      RunFailsWith(Apply(s, es[0]), es[1..], t, exc);
    }
  }

  /** The exception of the first startup that `gather` finds failed is the one the group fails with,
      whatever the others do later, unless the group is cancelled before it has seen it. */
  lemma FirstFailureWins(s: State, i: nat, es: seq<Event>, t: State)
    requires Inv(s) && s.group.Gathering? && s.gather.Pending? && Enabled(s, Collect(i))
    requires s.startups[i].stage.exc.Some? && Runs(Apply(s, Collect(i)), es, t)
    ensures t.group.Gathering? || Outgoing(t.group) == s.startups[i].stage.exc
            || (Outgoing(t.group) == Some(CancelledError) && t.disturbed)
  {
    StepOk(s, Collect(i));
    var exc := s.startups[i].stage.exc.value;
    assert FailsWith(Apply(s, Collect(i)), exc);
    RunFailsWith(Apply(s, Collect(i)), es, t, exc);
  }

  /** A service that raises before its tasks exist: its startup ends with that exception, for good. */
  lemma EarlyFailureIsKept(s: State, i: nat, exc: Exc, es: seq<Event>, t: State)
    requires Inv(s) && Enabled(s, FirstRun(i, Some(exc))) && !s.startups[i].marked
    requires Runs(Apply(s, FirstRun(i, Some(exc))), es, t)
    ensures i < |t.startups| && t.startups[i].stage == Finished(Some(exc)) && t.startups[i].start.NotCreated?
  {
    StepOk(s, FirstRun(i, Some(exc)));
    var u := Apply(s, FirstRun(i, Some(exc)));
    EveryRunIsOnward(u, es, t);
    RunKeepsInv(u, es, t);
    assert Onward(u.startups[i], t.startups[i]) && Culprit(u.startups[i], exc);
    assert StartupOk(t.startups[i], i in t.services, i in t.tasks);
    RunKeepsEarly(u, es, t, i);
  }

  lemma {:induction false} RunKeepsEarly(s: State, es: seq<Event>, t: State, i: nat)
    requires Inv(s) && Runs(s, es, t) && i < |s.startups| && s.startups[i].early
    ensures i < |t.startups| && t.startups[i].early
    decreases |es|
  {
    if es != [] {
      StepOk(s, es[0]);
      StepKeepsEarly(s, es[0], i);
      hide Inv, Apply, Enabled;
      RunKeepsEarly(Apply(s, es[0]), es[1..], t, i);
    }
  }

  lemma StepKeepsEarly(s: State, e: Event, i: nat)
    requires Inv(s) && Enabled(s, e) && i < |s.startups| && s.startups[i].early
    ensures i < |Apply(s, e).startups| && Apply(s, e).startups[i].early
  {
    assert StartupOk(s.startups[i], i in s.services, i in s.tasks);
  }

  // --------------------------------------------------------------------------- the receivers

  lemma {:induction false} OverIsOver(s: State, es: seq<Event>, t: State)
    requires s.group.Over? && Runs(s, es, t)
    ensures t.group == s.group && forall i :: 0 <= i < |es| ==> !es[i].PostStartEnds?
    decreases |es|
  {
    if es != [] {
      OverIsOver(Apply(s, es[0]), es[1..], t);
      assert forall i :: 1 <= i < |es| ==> es[i] == es[1..][i - 1];
    }
  }

  /** `start_services` is over after the receivers of POST_START have run, once; what they raised is what
      the model remembers as theirs. */
  lemma {:induction false} ReceiversRunOnce(s: State, es: seq<Event>, t: State) returns (k: nat)
    requires !s.group.Over? && Runs(s, es, t) && t.group.Over?
    ensures k < |es| && es[k] == PostStartEnds(t.group.receivers)
    ensures forall i :: 0 <= i < |es| && i != k ==> !es[i].PostStartEnds?
    decreases |es|
  {
    var u := Apply(s, es[0]);
    if u.group.Over? {
      k := 0;
      OverIsOver(u, es[1..], t);
      assert forall i :: 1 <= i < |es| ==> es[i] == es[1..][i - 1];
    } else {
      k := ReceiversRunOnce(u, es[1..], t);
      k := k + 1;
      assert forall i :: 1 <= i < |es| ==> es[i] == es[1..][i - 1];
    }
  }

  /** The exception that leaves `start_services`, over every run from the start: that of the POST_START
      receivers if they raised, else the one the group failed with. */
  lemma ReceiversReplaceIt(n: nat, es: seq<Event>, t: State) returns (k: nat)
    requires Runs(Init(n), es, t) && t.group.Over?
    ensures k < |es| && es[k].PostStartEnds?
    ensures Propagated(t.group) == if es[k].raised.Some? then es[k].raised else t.group.exc
  {
    k := ReceiversRunOnce(Init(n), es, t);
  }
}
