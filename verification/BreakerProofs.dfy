/** What every run of the circuit breaker keeps. */
module BreakerProofs {
  import opened Basics
  import opened BreakerWindow
  import opened BreakerProtocol

  // ------------------------------------------------- every step keeps the invariant

  lemma InitOk(cfg: Config)
    requires 0.0 < cfg.responseTime && cfg.recoveryTime != 0.0
    ensures Inv(cfg, Init())
  {
  }

  lemma NewestIncreasing(slots: seq<Slot>)
    requires Increasing(slots)
    ensures Increasing(Newest(slots)) && |Newest(slots)| <= BUCKET_COUNT
    ensures slots != [] ==> Newest(slots) != [] && Newest(slots)[|Newest(slots)| - 1] == slots[|slots| - 1]
    ensures forall x :: x in Newest(slots) ==> x in slots
  {
  }

  lemma RecordedIncreasing(history: seq<Slot>, key: int, made: nat)
    requires Increasing(history)
    requires forall i :: 0 <= i < |history| ==> history[i].key <= key
    ensures Increasing(Recorded(history, key, made))
    ensures forall i :: 0 <= i < |Recorded(history, key, made)| ==> Recorded(history, key, made)[i].key <= key
  {
    if !IsCurrent(history, key) && history != [] {
      assert history[|history| - 1].key < key;
    }
  }

  lemma TouchedOk(deque: seq<Slot>, key: int, made: nat)
    requires Increasing(deque) && |deque| <= BUCKET_COUNT
    requires forall i :: 0 <= i < |deque| ==> deque[i].key <= key
    ensures var r := Touched(deque, key, made);
            && Increasing(r) && |r| <= BUCKET_COUNT
            && (forall i :: 0 <= i < |r| ==> r[i].key <= key && (r[i] in deque || r[i].counter == made))
            && (!IsCurrent(deque, key) ==> r[|r| - 1].counter == made)
  {
    RecordedIncreasing(deque, key, made);
    NewestIncreasing(Recorded(deque, key, made));
    var r := Touched(deque, key, made);
    assert r == Newest(Recorded(deque, key, made));
    forall i | 0 <= i < |r|
      ensures r[i].key <= key && (r[i] in deque || r[i].counter == made)
    {
      assert r[i] in Recorded(deque, key, made);
    }
  }

  lemma TouchedNumbered(deque: seq<Slot>, key: int, made: nat)
    requires Numbered(deque) && forall i :: 0 <= i < |deque| ==> deque[i].counter < made
    ensures Numbered(Touched(deque, key, made))
  {
  }

  lemma WithCounterOk(cfg: Config, s: Breaker, t: real)
    requires Inv(cfg, s) && s.now <= t
    ensures Inv(cfg, WithCounter(cfg, s, t))
  {
    var key := Bucket(t, cfg.responseTime);
    BucketMonotone(s.now, t, cfg.responseTime);
    TouchedOk(s.deque, key, |s.tallies|);
    TouchedNumbered(s.deque, key, |s.tallies|);
    var grown := s.tallies + [Tally(0, 0, 0)];
    assert grown[..|s.tallies|] == s.tallies;
  }

  /** Computing the phase touches neither Counters nor statistics; the deque is kept or cleared. */
  lemma ComputedKeeps(cfg: Config, s: Breaker, t: real, u: real)
    requires Inv(cfg, s) && s.now <= t
    ensures var r := Computed(cfg, s, t, u);
            && r.tallies == s.tallies && r.stats == s.stats && r.inflight == s.inflight
            && (r.deque == s.deque || r.deque == [])
            && (r.phase.Recovering? ==> r.stuckUntil <= r.recoveryAt <= t)
  {
  }

  lemma CountedOk(cfg: Config, s: Breaker, phase: Phase, v: Verdict, now: real)
    requires Inv(cfg, s) && s.now <= now
    requires v.Admitted? ==> v.counter < |s.tallies|
    requires phase.Passing? ==> v.Admitted?
    requires phase.Broken? ==> v.Refused?
    ensures Inv(cfg, s.(stats := Counted(s.stats, phase, v.Admitted?), now := now,
                        inflight := if v.Admitted? then s.inflight + multiset{v.counter} else s.inflight))
  {
    BucketMonotone(s.now, now, cfg.responseTime);
  }

  lemma DispatchedOk(cfg: Config, s: Breaker, clock: Clock)
    requires Inv(cfg, s) && clock.From(s.now)
    ensures Inv(cfg, Dispatched(cfg, s, clock).(now := clock.compute))
    ensures |WithCounter(cfg, s, clock.count).tallies| == |Dispatched(cfg, s, clock).tallies|
  {
    WithCounterOk(cfg, s, clock.count);
    var s1 := WithCounter(cfg, s, clock.count);
    BucketMonotone(clock.count, clock.compute, cfg.responseTime);
    ComputedKeeps(cfg, s1, clock.compute, clock.ratio);
  }

  lemma EnteredOk(cfg: Config, pow: real -> real, s: Breaker, clock: Clock, draw: real)
    requires Inv(cfg, s) && Enabled(s, Enter(clock, draw))
    ensures Inv(cfg, Entered(cfg, pow, s, clock, draw))
  {
    WithCounterOk(cfg, s, clock.count);
    DispatchedOk(cfg, s, clock);
    var s2 := Dispatched(cfg, s, clock);
    CountedOk(cfg, s2.(now := clock.compute), s2.phase, VerdictOf(cfg, pow, s, clock, draw), clock.admit);
  }

  lemma LeftOk(cfg: Config, s: Breaker, counter: nat, outcome: Outcome)
    requires Inv(cfg, s) && Enabled(s, Leave(counter, outcome))
    ensures Inv(cfg, Left(s, counter, outcome))
  {
    SumUpdate(TotalOf, s.tallies, counter, Scored(s.tallies[counter], outcome));
  }

  lemma StepOk(cfg: Config, pow: real -> real, s: Breaker, e: Event)
    requires Inv(cfg, s) && Enabled(s, e)
    ensures Inv(cfg, Apply(cfg, pow, s, e))
  {
    match e
    case Enter(clock, draw) => EnteredOk(cfg, pow, s, clock, draw);
    case Leave(counter, outcome) => LeftOk(cfg, s, counter, outcome);
  }

  // ------------------------------------------------------------------ whole runs

  ghost predicate IsRun(cfg: Config, pow: real -> real, s: Breaker, es: seq<Event>)
    decreases |es|
  {
    && 0.0 < cfg.responseTime && cfg.recoveryTime != 0.0 && Linked(s)
    && (es != [] ==> Enabled(s, es[0]) && IsRun(cfg, pow, Apply(cfg, pow, s, es[0]), es[1..]))
  }

  ghost function After(cfg: Config, pow: real -> real, s: Breaker, es: seq<Event>): Breaker
    requires IsRun(cfg, pow, s, es)
    decreases |es|
  {
    if es == [] then s else After(cfg, pow, Apply(cfg, pow, s, es[0]), es[1..])
  }

  lemma {:induction false} EveryRunKeepsInv(cfg: Config, pow: real -> real, s: Breaker, es: seq<Event>)
    requires Inv(cfg, s) && IsRun(cfg, pow, s, es)
    ensures Inv(cfg, After(cfg, pow, s, es))
    decreases |es|
  {
    if es != [] {
      StepOk(cfg, pow, s, es[0]);
      EveryRunKeepsInv(cfg, pow, Apply(cfg, pow, s, es[0]), es[1..]);
    }
  }

  // ------------------------------------------------- when the phase changes, exactly

  lemma {:induction false} FailingCountAll(cfg: Config, slots: seq<Slot>, tallies: seq<Tally>)
    requires forall i :: 0 <= i < |slots| ==> slots[i].counter < |tallies|
    ensures FailingCount(cfg, slots, tallies) <= |slots|
    ensures FailingCount(cfg, slots, tallies) == |slots| <==>
            forall i :: 0 <= i < |slots| ==> Failing(cfg, tallies[slots[i].counter])
  {
    if slots != [] {
      var n := |slots| - 1;
      FailingCountAll(cfg, slots[..n], tallies);
      assert forall i :: 0 <= i < n ==> slots[..n][i] == slots[i];
    }
  }

  ghost function FailingAt(cfg: Config, slots: seq<Slot>, tallies: seq<Tally>): set<int>
    requires forall i :: 0 <= i < |slots| ==> slots[i].counter < |tallies|
  {
    set i | 0 <= i < |slots| && Failing(cfg, tallies[slots[i].counter])
  }

  lemma {:induction false} FailingCountIs(cfg: Config, slots: seq<Slot>, tallies: seq<Tally>)
    requires forall i :: 0 <= i < |slots| ==> slots[i].counter < |tallies|
    ensures FailingCount(cfg, slots, tallies) == |FailingAt(cfg, slots, tallies)|
  {
    if slots != [] {
      var n := |slots| - 1;
      FailingCountIs(cfg, slots[..n], tallies);
      var rest := FailingAt(cfg, slots[..n], tallies);
      assert n !in rest;
      assert FailingAt(cfg, slots, tallies)
          == if Failing(cfg, tallies[slots[n].counter]) then rest + {n} else rest;
    }
  }

  /** The ratio is a share, and it is one exactly if the window is not empty and wholly failing. */
  lemma RatioIsAShare(cfg: Config, window: seq<Slot>, tallies: seq<Tally>)
    requires forall i :: 0 <= i < |window| ==> window[i].counter < |tallies|
    ensures 0.0 <= Ratio(cfg, window, tallies) <= 1.0
    ensures Ratio(cfg, window, tallies) == 1.0 <==>
            window != [] && forall i :: 0 <= i < |window| ==> Failing(cfg, tallies[window[i].counter])
    ensures Ratio(cfg, window, tallies) * |window| as real == |FailingAt(cfg, window, tallies)| as real
  {
    hide FailingCount, Failing;
    FailingCountAll(cfg, window, tallies);
    FailingCountIs(cfg, window, tallies);
    if window != [] {
      Share(FailingCount(cfg, window, tallies) as real, |window| as real);
    }
  }

  lemma Share(n: real, d: real)
    requires 0.0 <= n <= d && 0.0 < d
    ensures 0.0 <= n / d <= 1.0
    ensures n / d == 1.0 <==> n == d
    ensures n / d * d == n
  {
    var q := n / d;
    assert q * d == n;
    DivSelf(d);
    DivMonotone(n, d, d);
    DivMonotone(0.0, n, d);
  }

  /** In the window of `u`, every retained bucket is failing, and there is one. */
  ghost predicate WhollyFailing(cfg: Config, s: Breaker, u: real)
    requires 0.0 < cfg.responseTime && Linked(s)
  {
    && Window(cfg, s, u) != []
    && forall i :: 0 <= i < |Window(cfg, s, u)| ==> Failing(cfg, s.tallies[Window(cfg, s, u)[i].counter])
  }

  /** Every edge of the state machine, with its exact condition; there is no other edge. */
  lemma PhaseEdges(cfg: Config, s: Breaker, t: real, u: real)
    requires Inv(cfg, s)
    ensures var r := Computed(cfg, s, t, u); var free := s.stuckUntil <= t;
            && (s.phase.Passing? ==>
                  && !r.phase.Recovering?
                  && (r.phase.Broken? <==> free && |s.deque| == BUCKET_COUNT && WhollyFailing(cfg, s, u)))
            && (s.phase.Broken? ==> r.phase == if free then Recovering else Broken)
            && (s.phase.Recovering? ==>
                  && (r.phase.Broken? <==> free && 0.5 * cfg.errorRatio <= Ratio(cfg, Window(cfg, s, u), s.tallies))
                  && (r.phase.Passing? <==>
                        free && !r.phase.Broken? && cfg.recoveryTime <= t - s.recoveryAt))
            && (r.phase.Broken? && !s.phase.Broken? ==> r.stuckUntil == t + cfg.brokenTime && r.deque == [])
            && (r.phase.Passing? && !s.phase.Passing? ==> r.stuckUntil == t + cfg.passingTime)
            && (r.phase.Recovering? && !s.phase.Recovering? ==> r.recoveryAt == t && r.stuckUntil == s.stuckUntil)
            && (r.phase == s.phase ==> r == s)
            && (!r.phase.Broken? ==> r.deque == s.deque) && (s.phase.Recovering? ==> r.recoveryAt == s.recoveryAt)
  {
    RatioIsAShare(cfg, Window(cfg, s, u), s.tallies);
  }

  /** A call that trips the breaker out of PASSING, whatever its clock readings: ten buckets are
      retained, its own is the newest and was there before, every bucket in the window has a completed
      call and a failure share at or above the threshold, and its own bucket is one of them. */
  lemma TripNeedsFailuresInTheCurrentBucket(cfg: Config, s: Breaker, clock: Clock)
    requires Inv(cfg, s) && clock.From(s.now) && s.phase.Passing?
    requires Dispatched(cfg, s, clock).phase.Broken?
    ensures var s1 := WithCounter(cfg, s, clock.count);
            && Linked(s1) && |s1.deque| == BUCKET_COUNT && IsCurrent(s.deque, Bucket(clock.count, cfg.responseTime))
            && s1.deque[|s1.deque| - 1].key == Bucket(clock.count, cfg.responseTime)
            && s1.deque[|s1.deque| - 1] in Window(cfg, s1, clock.ratio)
            && forall slot :: slot in Window(cfg, s1, clock.ratio) ==>
                 slot.counter < |s1.tallies| && Failing(cfg, s1.tallies[slot.counter])
  {
    var key := Bucket(clock.count, cfg.responseTime);
    WithCounterOk(cfg, s, clock.count);
    BucketMonotone(s.now, clock.count, cfg.responseTime);
    TouchedOk(s.deque, key, |s.tallies|);
    var s1 := WithCounter(cfg, s, clock.count);
    PhaseEdges(cfg, s1, clock.compute, clock.ratio);
    hide Bucket, Computed, Ratio, TalliesOk, StatsOk, Failing;
    assert WhollyFailing(cfg, s1, clock.ratio);
    var k := NewestInWindow(cfg, s1, clock.ratio);
    NewCounterIsNotFailing(cfg);
  }

  /** A window that is not empty holds the newest bucket. */
  lemma NewestInWindow(cfg: Config, s: Breaker, u: real) returns (i: nat)
    requires 0.0 < cfg.responseTime && Linked(s) && Increasing(s.deque) && Window(cfg, s, u) != []
    ensures i < |Window(cfg, s, u)| && s.deque != [] && Window(cfg, s, u)[i] == s.deque[|s.deque| - 1]
  {
    var k := WindowIsSuffix(s.deque, NotBefore(u, cfg.responseTime));
    i := |s.deque| - 1 - k;
  }

  lemma NewCounterIsNotFailing(cfg: Config)
    ensures !Failing(cfg, Tally(0, 0, 0))
  {
  }

  // ---------------------------------------------------------------- dwell times

  lemma InvGives(cfg: Config, s: Breaker)
    requires Inv(cfg, s)
    ensures 0.0 < cfg.responseTime && cfg.recoveryTime != 0.0 && Linked(s)
  {
  }

  // ------------------------------------------------------------ what the statistics count

  /** The calls that were dispatched in this phase, admitted or refused as asked for. */
  ghost function Calls(cfg: Config, pow: real -> real, s: Breaker, es: seq<Event>, phase: Phase, admitted: bool): nat
    requires IsRun(cfg, pow, s, es)
    decreases |es|
  {
    if es == [] then 0
    else
      (if DispatchedIn(cfg, pow, s, es[0], phase, admitted) then 1 else 0)
      + Calls(cfg, pow, Apply(cfg, pow, s, es[0]), es[1..], phase, admitted)
  }

  ghost predicate DispatchedIn(cfg: Config, pow: real -> real, s: Breaker, e: Event, phase: Phase, admitted: bool)
    requires 0.0 < cfg.responseTime && cfg.recoveryTime != 0.0 && Linked(s)
  {
    && e.Enter? && Dispatched(cfg, s, e.clock).phase == phase
    && VerdictOf(cfg, pow, s, e.clock, e.draw).Admitted? == admitted
  }

  lemma StepStats(cfg: Config, pow: real -> real, s: Breaker, e: Event)
    requires Inv(cfg, s) && Enabled(s, e)
    ensures var a, b := s.stats, Apply(cfg, pow, s, e).stats;
            && b.passing == a.passing + Unit(DispatchedIn(cfg, pow, s, e, Passing, true))
            && b.broken == a.broken + Unit(DispatchedIn(cfg, pow, s, e, Broken, false))
            && b.recoveringOk == a.recoveringOk + Unit(DispatchedIn(cfg, pow, s, e, Recovering, true))
            && b.recoveringFailed == a.recoveringFailed + Unit(DispatchedIn(cfg, pow, s, e, Recovering, false))
    ensures !DispatchedIn(cfg, pow, s, e, Passing, false) && !DispatchedIn(cfg, pow, s, e, Broken, true)
  {
    if e.Enter? {
      WithCounterOk(cfg, s, e.clock.count);
      ComputedKeeps(cfg, WithCounter(cfg, s, e.clock.count), e.clock.compute, e.clock.ratio);
    }
    hide Bucket, Computed, Touched, Admits;
  }

  function Unit(b: bool): nat {
    if b then 1 else 0
  }

  /** Over every run: each call counter is the number of the calls dispatched in its phase, of those
      admitted and refused while recovering apart; every call in PASSING is admitted, none in BROKEN. */
  lemma {:induction false} StatisticsCount(cfg: Config, pow: real -> real, s: Breaker, es: seq<Event>)
    requires Inv(cfg, s) && IsRun(cfg, pow, s, es)
    ensures var a, b := s.stats, After(cfg, pow, s, es).stats;
            && b.passing == a.passing + Calls(cfg, pow, s, es, Passing, true)
            && b.broken == a.broken + Calls(cfg, pow, s, es, Broken, false)
            && b.recoveringOk == a.recoveringOk + Calls(cfg, pow, s, es, Recovering, true)
            && b.recoveringFailed == a.recoveringFailed + Calls(cfg, pow, s, es, Recovering, false)
    ensures Calls(cfg, pow, s, es, Passing, false) == 0 && Calls(cfg, pow, s, es, Broken, true) == 0
    decreases |es|
  {
    if es != [] {
      StepOk(cfg, pow, s, es[0]);
      StepStats(cfg, pow, s, es[0]);
      hide Inv, Apply, Enabled, DispatchedIn;
      StatisticsCount(cfg, pow, Apply(cfg, pow, s, es[0]), es[1..]);
    }
  }

  // --------------------------------------------------- what the Counters count

  /** The calls with this Counter that ended this way, and all that ended. */
  function Ended(es: seq<Event>, counter: nat, outcome: Outcome): nat {
    if es == [] then 0 else (if es[0] == Leave(counter, outcome) then 1 else 0) + Ended(es[1..], counter, outcome)
  }

  function EndedAll(es: seq<Event>, counter: nat): nat {
    Ended(es, counter, Success) + Ended(es, counter, Failure) + Ended(es, counter, Ignored)
  }

  function TallyOf(s: Breaker, counter: nat): Tally {
    if counter < |s.tallies| then s.tallies[counter] else Tally(0, 0, 0)
  }

  lemma StepTally(cfg: Config, pow: real -> real, s: Breaker, e: Event, counter: nat)
    requires Inv(cfg, s) && Enabled(s, e)
    ensures var a, b := TallyOf(s, counter), TallyOf(Apply(cfg, pow, s, e), counter);
            && b.fail == a.fail + Ended([e], counter, Failure)
            && b.ok == a.ok + Ended([e], counter, Success)
            && b.total == a.total + EndedAll([e], counter)
  {
    hide Bucket, Computed, TalliesOk, Touched, Ended;
    EndedOne(e, counter);
    if e.Enter? {
      WithCounterOk(cfg, s, e.clock.count);
      ComputedKeeps(cfg, WithCounter(cfg, s, e.clock.count), e.clock.compute, e.clock.ratio);
    }
  }

  lemma EndedOne(e: Event, counter: nat)
    ensures forall o :: Ended([e], counter, o) == if e == Leave(counter, o) then 1 else 0
    ensures EndedAll([e], counter) == if e.Leave? && e.counter == counter then 1 else 0
  {
    assert [e][1..] == [];
    assert forall o :: Ended([e], counter, o) == (if e == Leave(counter, o) then 1 else 0) + Ended([], counter, o);
    if e.Leave? {
      match e.outcome
      case Success =>
      case Failure =>
      case Ignored =>
    }
  }

  lemma {:induction false} EndedSplits(e: Event, es: seq<Event>, counter: nat, outcome: Outcome)
    ensures Ended([e] + es, counter, outcome) == Ended([e], counter, outcome) + Ended(es, counter, outcome)
  {
    assert ([e] + es)[1..] == es && [e][1..] == [];
  }

  /** Over every run: a Counter's FAIL, OK and TOTAL are the numbers of calls with that Counter that ended
      with a counted failure, that succeeded, and that ended at all. */
  lemma {:induction false} CountersCount(cfg: Config, pow: real -> real, s: Breaker, es: seq<Event>, counter: nat)
    requires Inv(cfg, s) && IsRun(cfg, pow, s, es)
    ensures var a, b := TallyOf(s, counter), TallyOf(After(cfg, pow, s, es), counter);
            && b.fail == a.fail + Ended(es, counter, Failure)
            && b.ok == a.ok + Ended(es, counter, Success)
            && b.total == a.total + EndedAll(es, counter)
    decreases |es|
  {
    if es != [] {
      StepOk(cfg, pow, s, es[0]);
      StepTally(cfg, pow, s, es[0], counter);
      assert es == [es[0]] + es[1..];
      EndedSplits(es[0], es[1..], counter, Failure);
      EndedSplits(es[0], es[1..], counter, Success);
      EndedSplits(es[0], es[1..], counter, Ignored);
      hide Inv, Apply, Ended, Enabled, TallyOf;
      CountersCount(cfg, pow, Apply(cfg, pow, s, es[0]), es[1..], counter);
    }
  }

  /** A call is counted in the bucket of its entry: the Counter it gets belongs to that bucket alone. */
  lemma EntersItsOwnBucket(cfg: Config, pow: real -> real, s: Breaker, clock: Clock, draw: real) returns (i: nat)
    requires Inv(cfg, s) && Enabled(s, Enter(clock, draw)) && VerdictOf(cfg, pow, s, clock, draw).Admitted?
    ensures var s1, v := WithCounter(cfg, s, clock.count), VerdictOf(cfg, pow, s, clock, draw);
            && i < |s1.deque| && s1.deque[i] == Slot(Bucket(clock.count, cfg.responseTime), v.counter)
            && (forall j :: 0 <= j < |s1.deque| && s1.deque[j].counter == v.counter ==> j == i)
            && Apply(cfg, pow, s, Enter(clock, draw)).deque == s1.deque
            && Apply(cfg, pow, s, Enter(clock, draw)).inflight == s.inflight + multiset{v.counter}
  {
    WithCounterOk(cfg, s, clock.count);
    var s1 := WithCounter(cfg, s, clock.count);
    PhaseEdges(cfg, s1, clock.compute, clock.ratio);
    ComputedKeeps(cfg, s1, clock.compute, clock.ratio);
    hide Bucket, Computed, TalliesOk, Ratio;
    i := |s1.deque| - 1;
  }

  /** The share of failures among the calls with this Counter that have ended, in the events so far. */
  ghost predicate FailedEnough(cfg: Config, es: seq<Event>, counter: nat) {
    && 0 < EndedAll(es, counter)
    && cfg.errorRatio <= Ended(es, counter, Failure) as real / EndedAll(es, counter) as real
  }

  /** Over every run from the start: a call that finds PASSING trips the breaker exactly if the time of
      PASSING is over, ten buckets are retained, there is one in the window, and of every bucket in the
      window calls have ended with a share of failures at or above `error_ratio`; and then its own bucket
      is the newest and in the window. */
  lemma TripsIffCallsFailed(cfg: Config, pow: real -> real, s: Breaker, es: seq<Event>, clock: Clock)
    requires s == Init() && IsRun(cfg, pow, s, es) && 0.0 < cfg.responseTime && cfg.recoveryTime != 0.0
    requires var u := After(cfg, pow, s, es); clock.From(u.now) && u.phase.Passing?
    ensures var u := After(cfg, pow, s, es); var s1 := WithCounter(cfg, u, clock.count);
            && Linked(u) && Linked(s1)
            && (Dispatched(cfg, u, clock).phase.Broken? <==>
                  && u.stuckUntil <= clock.compute && |s1.deque| == BUCKET_COUNT && Window(cfg, s1, clock.ratio) != []
                  && forall slot :: slot in Window(cfg, s1, clock.ratio) ==> FailedEnough(cfg, es, slot.counter))
            && (Dispatched(cfg, u, clock).phase.Broken? ==>
                  && s1.deque[|s1.deque| - 1].key == Bucket(clock.count, cfg.responseTime)
                  && s1.deque[|s1.deque| - 1] in Window(cfg, s1, clock.ratio))
  {
    hide Bucket, Computed, Ratio, TalliesOk, StatsOk, Failing, Touched, Ended;
    InitOk(cfg);
    EveryRunKeepsInv(cfg, pow, s, es);
    var u := After(cfg, pow, s, es);
    WithCounterOk(cfg, u, clock.count);
    var s1 := WithCounter(cfg, u, clock.count);
    PhaseEdges(cfg, s1, clock.compute, clock.ratio);
    if Dispatched(cfg, u, clock).phase.Broken? {
      TripNeedsFailuresInTheCurrentBucket(cfg, u, clock);
    }
    forall slot | slot in Window(cfg, s1, clock.ratio)
      ensures Failing(cfg, s1.tallies[slot.counter]) <==> FailedEnough(cfg, es, slot.counter)
    {
      CountersCount(cfg, pow, s, es, slot.counter);
      FailingMeans(cfg, pow, s, es, s1, slot.counter);
    }
  }

  lemma FailingMeans(cfg: Config, pow: real -> real, s: Breaker, es: seq<Event>, s1: Breaker, counter: nat)
    requires s == Init() && IsRun(cfg, pow, s, es) && counter < |s1.tallies|
    requires var t := TallyOf(After(cfg, pow, s, es), counter);
             t.fail == Ended(es, counter, Failure) && t.total == EndedAll(es, counter)
    requires var u := After(cfg, pow, s, es);
             s1.tallies == u.tallies || s1.tallies == u.tallies + [Tally(0, 0, 0)]
    ensures Failing(cfg, s1.tallies[counter]) <==> FailedEnough(cfg, es, counter)
  {
  }

  ghost predicate TripsAt(cfg: Config, pow: real -> real, s: Breaker, e: Event)
    requires IsRun(cfg, pow, s, [e])
  {
    e.Enter? && !s.phase.Broken? && Apply(cfg, pow, s, e).phase.Broken?
  }

  /** What remains true of every state after a trip at `t0`. */
  ghost predicate SinceTrip(cfg: Config, s: Breaker, t0: real) {
    && t0 <= s.now
    && match s.phase
       case Broken => t0 + cfg.brokenTime <= s.stuckUntil
       case Recovering => t0 + cfg.brokenTime <= s.recoveryAt
       case Passing => t0 + cfg.brokenTime + cfg.recoveryTime <= s.now
  }

  lemma StepSinceTrip(cfg: Config, pow: real -> real, s: Breaker, e: Event, t0: real)
    requires Inv(cfg, s) && Enabled(s, e) && SinceTrip(cfg, s, t0)
    ensures SinceTrip(cfg, Apply(cfg, pow, s, e), t0)
  {
    if e.Enter? {
      WithCounterOk(cfg, s, e.clock.count);
      PhaseEdges(cfg, WithCounter(cfg, s, e.clock.count), e.clock.compute, e.clock.ratio);
    }
  }

  lemma {:induction false} RunSinceTrip(cfg: Config, pow: real -> real, s: Breaker, es: seq<Event>, t0: real)
    requires Inv(cfg, s) && IsRun(cfg, pow, s, es) && SinceTrip(cfg, s, t0)
    ensures SinceTrip(cfg, After(cfg, pow, s, es), t0)
    decreases |es|
  {
    if es != [] {
      StepOk(cfg, pow, s, es[0]);
      StepSinceTrip(cfg, pow, s, es[0], t0);
      RunSinceTrip(cfg, pow, Apply(cfg, pow, s, es[0]), es[1..], t0);
    }
  }

  /** Over every run after a trip at `t0`: a call that enters before `t0 + broken_time` finds BROKEN
      and is refused, and PASSING is not reached before `t0 + broken_time + recovery_time`. */
  lemma TripKeepsCallsAway(cfg: Config, pow: real -> real, s: Breaker, trip: Event, es: seq<Event>, next: Event)
    requires Inv(cfg, s) && IsRun(cfg, pow, s, [trip]) && TripsAt(cfg, pow, s, trip)
    requires 0.0 <= cfg.recoveryTime && IsRun(cfg, pow, Apply(cfg, pow, s, trip), es)
    requires next.Enter? && Enabled(After(cfg, pow, Apply(cfg, pow, s, trip), es), next)
    ensures var u := After(cfg, pow, Apply(cfg, pow, s, trip), es); var t0 := trip.clock.compute;
            && Linked(u)
            && (VerdictOf(cfg, pow, u, next.clock, next.draw).Admitted? ==> t0 + cfg.brokenTime <= next.clock.compute)
            && (next.clock.compute < t0 + cfg.brokenTime ==> Dispatched(cfg, u, next.clock).phase.Broken?)
            && (Entered(cfg, pow, u, next.clock, next.draw).phase.Passing? ==>
                  t0 + cfg.brokenTime + cfg.recoveryTime <= next.clock.admit)
  {
    StepOk(cfg, pow, s, trip);
    WithCounterOk(cfg, s, trip.clock.count);
    PhaseEdges(cfg, WithCounter(cfg, s, trip.clock.count), trip.clock.compute, trip.clock.ratio);
    var s1 := Apply(cfg, pow, s, trip);
    RunSinceTrip(cfg, pow, s1, es, trip.clock.compute);
    EveryRunKeepsInv(cfg, pow, s1, es);
    var u := After(cfg, pow, s1, es);
    StepSinceTrip(cfg, pow, u, next, trip.clock.compute);
    WithCounterOk(cfg, u, next.clock.count);
    PhaseEdges(cfg, WithCounter(cfg, u, next.clock.count), next.clock.compute, next.clock.ratio);
  }

  /** What remains true of every state after a recovery at `t1`, until it has lasted `passing_time`. */
  ghost predicate SincePassing(cfg: Config, s: Breaker, t1: real) {
    t1 + cfg.passingTime <= s.now || (s.phase.Passing? && s.stuckUntil == t1 + cfg.passingTime)
  }

  lemma {:induction false} RunSincePassing(cfg: Config, pow: real -> real, s: Breaker, es: seq<Event>, t1: real)
    requires Inv(cfg, s) && IsRun(cfg, pow, s, es) && SincePassing(cfg, s, t1)
    ensures SincePassing(cfg, After(cfg, pow, s, es), t1)
    decreases |es|
  {
    if es != [] {
      var e := es[0];
      StepOk(cfg, pow, s, e);
      if e.Enter? {
        WithCounterOk(cfg, s, e.clock.count);
        PhaseEdges(cfg, WithCounter(cfg, s, e.clock.count), e.clock.compute, e.clock.ratio);
      }
      RunSincePassing(cfg, pow, Apply(cfg, pow, s, e), es[1..], t1);
    }
  }

  /** A PASSING that recovery reached at `t1` holds at every state up to `t1 + passing_time`. */
  lemma RecoveredPassingLasts(cfg: Config, pow: real -> real, s: Breaker, recover: Event, es: seq<Event>)
    requires Inv(cfg, s) && IsRun(cfg, pow, s, [recover]) && recover.Enter?
    requires !s.phase.Passing? && Apply(cfg, pow, s, recover).phase.Passing?
    requires IsRun(cfg, pow, Apply(cfg, pow, s, recover), es)
    ensures var u := After(cfg, pow, Apply(cfg, pow, s, recover), es);
            u.now < recover.clock.compute + cfg.passingTime ==> u.phase.Passing?
    ensures s.phase.Recovering? && cfg.recoveryTime <= recover.clock.compute - s.recoveryAt
  {
    StepOk(cfg, pow, s, recover);
    WithCounterOk(cfg, s, recover.clock.count);
    PhaseEdges(cfg, WithCounter(cfg, s, recover.clock.count), recover.clock.compute, recover.clock.ratio);
    RunSincePassing(cfg, pow, Apply(cfg, pow, s, recover), es, recover.clock.compute);
  }

  // ----------------------------------------------------------------- admission

  /** What the model asks of `2 ** x`. */
  ghost predicate IsExp2(pow: real -> real) {
    && pow(0.0) == 1.0 && pow(1.0) == 2.0
    && forall x, y :: x < y ==> pow(x) < pow(y)
  }

  lemma RecoveryBegins(cfg: Config, s: Breaker, t: real, u: real)
    requires 0.0 < cfg.responseTime && Linked(s) && Computed(cfg, s, t, u).phase.Recovering?
    ensures Computed(cfg, s, t, u).recoveryAt == s.recoveryAt || Computed(cfg, s, t, u).recoveryAt == t
    ensures s.phase.Recovering? ==> Computed(cfg, s, t, u).recoveryAt == s.recoveryAt
    ensures !s.phase.Recovering? ==> Computed(cfg, s, t, u).recoveryAt == t
  {
  }

  /** A call dispatched in RECOVERING has been recovering for less than `recovery_time`
      when its state is computed; with one clock reading its exponent is in [0, 1). */
  lemma RecoveringIsYoung(cfg: Config, s: Breaker, clock: Clock)
    requires Inv(cfg, s) && clock.From(s.now) && 0.0 < cfg.recoveryTime
    requires Dispatched(cfg, s, clock).phase.Recovering?
    ensures var r := Dispatched(cfg, s, clock);
            && 0.0 <= clock.compute - r.recoveryAt < cfg.recoveryTime
            && (clock.admit == clock.compute ==> 0.0 <= Exponent(cfg, r.recoveryAt, clock.admit) < 1.0)
  {
    hide Bucket, Computed, Ratio, TalliesOk, StatsOk, Touched;
    WithCounterOk(cfg, s, clock.count);
    PhaseEdges(cfg, WithCounter(cfg, s, clock.count), clock.compute, clock.ratio);
    RecoveryBegins(cfg, WithCounter(cfg, s, clock.count), clock.compute, clock.ratio);
    var r := Dispatched(cfg, s, clock);
    ProperFraction(clock.compute - r.recoveryAt, cfg.recoveryTime);
  }

  lemma ProperFraction(x: real, d: real)
    requires 0.0 <= x < d
    ensures 0.0 <= x / d < 1.0
  {
    assert x / d * d == x;
    DivMonotone(0.0, x, d);
    if 1.0 <= x / d {
      MulMonotone(1.0, x / d, d);
    }
  }

  lemma PowMonotone(pow: real -> real, x: real, y: real)
    requires IsExp2(pow) && x <= y
    ensures pow(x) <= pow(y)
  {
    assert x < y ==> pow(x) < pow(y);
  }

  lemma ExponentGrows(cfg: Config, recoveryAt: real, t: real, u: real)
    requires 0.0 < cfg.recoveryTime && t <= u
    ensures Exponent(cfg, recoveryAt, t) <= Exponent(cfg, recoveryAt, u)
    ensures t <= recoveryAt ==> Exponent(cfg, recoveryAt, t) <= 0.0
    ensures cfg.recoveryTime <= t - recoveryAt ==> 1.0 <= Exponent(cfg, recoveryAt, t)
  {
    DivMonotone(t - recoveryAt, u - recoveryAt, cfg.recoveryTime);
    if t <= recoveryAt {
      DivMonotone(t - recoveryAt, 0.0, cfg.recoveryTime);
    }
    if cfg.recoveryTime <= t - recoveryAt {
      DivSelf(cfg.recoveryTime);
      DivMonotone(cfg.recoveryTime, t - recoveryAt, cfg.recoveryTime);
    }
  }

  /** At `recovery_at` itself nothing is admitted; from `recovery_time` on everything is;
      between, a draw that admits at one moment admits at every later one. */
  lemma AdmissionGrows(cfg: Config, pow: real -> real, recoveryAt: real, t: real, u: real, draw: real)
    requires IsExp2(pow) && 0.0 < cfg.recoveryTime && 0.0 <= draw < 1.0 && t <= u
    ensures t <= recoveryAt ==> !Admits(cfg, pow, recoveryAt, t, draw)
    ensures cfg.recoveryTime <= t - recoveryAt ==> Admits(cfg, pow, recoveryAt, t, draw)
    ensures Admits(cfg, pow, recoveryAt, t, draw) ==> Admits(cfg, pow, recoveryAt, u, draw)
  {
    var x := Exponent(cfg, recoveryAt, t);
    ExponentGrows(cfg, recoveryAt, t, u);
    PowMonotone(pow, x, Exponent(cfg, recoveryAt, u));
    if t <= recoveryAt {
      PowMonotone(pow, x, 0.0);
    }
    if cfg.recoveryTime <= t - recoveryAt {
      PowMonotone(pow, 1.0, x);
    }
  }

  // ----------------------------------------- the deque and the unbounded history

  /** At the fraction `x` of the recovery, the draws admitted are those below `2 ** x - 1`. */
  lemma AdmittedShare(cfg: Config, pow: real -> real, recoveryAt: real, t: real, draw: real, x: real)
    requires cfg.recoveryTime != 0.0 && x * cfg.recoveryTime == t - recoveryAt
    ensures Admits(cfg, pow, recoveryAt, t, draw) <==> draw < pow(x) - 1.0
  {
    assert Exponent(cfg, recoveryAt, t) == x;
  }

  /** The buckets since the last clear, if none were ever dropped. */
  ghost function Remembered(cfg: Config, pow: real -> real, s: Breaker, e: Event, history: seq<Slot>): seq<Slot>
    requires IsRun(cfg, pow, s, [e])
  {
    match e
    case Leave(_, _) => history
    case Enter(clock, _) =>
      if TripsAt(cfg, pow, s, e) then []
      else Recorded(history, Bucket(clock.count, cfg.responseTime), |s.tallies|)
  }

  ghost function History(cfg: Config, pow: real -> real, s: Breaker, es: seq<Event>, history: seq<Slot>): seq<Slot>
    requires IsRun(cfg, pow, s, es)
    decreases |es|
  {
    if es == [] then history
    else History(cfg, pow, Apply(cfg, pow, s, es[0]), es[1..], Remembered(cfg, pow, s, es[0], history))
  }

  ghost predicate Represents(cfg: Config, s: Breaker, history: seq<Slot>)
    requires 0.0 < cfg.responseTime
  {
    && s.deque == Newest(history)
    && Increasing(history)
    && AllBuckets(history, cfg.responseTime)
    && (forall i :: 0 <= i < |history| ==> history[i].key <= Bucket(s.now, cfg.responseTime))
  }

  lemma TouchedNewest(history: seq<Slot>, key: int, made: nat)
    ensures Touched(Newest(history), key, made) == Newest(Recorded(history, key, made))
  {
    if BUCKET_COUNT < |history| {
      assert Newest(history)[|Newest(history)| - 1] == history[|history| - 1];
    }
    if BUCKET_COUNT <= |history| && !IsCurrent(history, key) {
      var kept := Newest(history) + [Slot(key, made)];
      assert kept == (history + [Slot(key, made)])[|history| - BUCKET_COUNT..];
    }
  }

  lemma RecordedOk(history: seq<Slot>, key: int, made: nat, responseTime: real)
    requires Increasing(history) && AllBuckets(history, responseTime) && IsBucket(key, responseTime)
    requires forall i :: 0 <= i < |history| ==> history[i].key <= key
    ensures var r := Recorded(history, key, made);
            && Increasing(r) && AllBuckets(r, responseTime)
            && (forall i :: 0 <= i < |r| ==> r[i].key <= key)
            && Touched(Newest(history), key, made) == Newest(r)
  {
    RecordedIncreasing(history, key, made);
    var r := Recorded(history, key, made);
    forall i | 0 <= i < |r|
      ensures IsBucket(r[i].key, responseTime)
    {
      assert i < |history| ==> r[i] == history[i] && IsBucket(history[i].key, responseTime);
    }
    TouchedNewest(history, key, made);
  }

  lemma StepRepresents(cfg: Config, pow: real -> real, s: Breaker, e: Event, history: seq<Slot>)
    requires Inv(cfg, s) && IsRun(cfg, pow, s, [e]) && Represents(cfg, s, history)
    ensures Represents(cfg, Apply(cfg, pow, s, e), Remembered(cfg, pow, s, e, history))
  {
    if e.Enter? {
      var clock := e.clock;
      var key := Bucket(clock.count, cfg.responseTime);
      BucketMonotone(s.now, clock.count, cfg.responseTime);
      BucketMonotone(clock.count, clock.admit, cfg.responseTime);
      assert GridKey(Grid(clock.count, cfg.responseTime), cfg.responseTime) == key;
      RecordedOk(history, key, |s.tallies|, cfg.responseTime);
      WithCounterOk(cfg, s, clock.count);
      PhaseEdges(cfg, WithCounter(cfg, s, clock.count), clock.compute, clock.ratio);
    }
  }

  lemma {:induction false} RunRepresents(cfg: Config, pow: real -> real, s: Breaker, es: seq<Event>, history: seq<Slot>)
    requires Inv(cfg, s) && IsRun(cfg, pow, s, es) && Represents(cfg, s, history)
    ensures Represents(cfg, After(cfg, pow, s, es), History(cfg, pow, s, es, history))
    decreases |es|
  {
    if es != [] {
      StepOk(cfg, pow, s, es[0]);
      StepRepresents(cfg, pow, s, es[0], history);
      RunRepresents(cfg, pow, Apply(cfg, pow, s, es[0]), es[1..], Remembered(cfg, pow, s, es[0], history));
    }
  }

  /** Over every run: what the bounded deque shows at time `t` are the newest ten in-window buckets
      of the whole history since the last clear, and at most one in-window bucket is missing. */
  lemma BoundedWindowRefinesHistory(cfg: Config, pow: real -> real, s: Breaker, es: seq<Event>, t: real)
    requires s == Init() && IsRun(cfg, pow, s, es) && After(cfg, pow, s, es).now <= t
    ensures var u := After(cfg, pow, s, es);
            var all := InWindow(History(cfg, pow, s, es, []), NotBefore(t, cfg.responseTime));
            Linked(u) && Window(cfg, u, t) == Newest(all) && |all| <= |Window(cfg, u, t)| + 1
  {
    InitOk(cfg);
    RunWindow(cfg, pow, s, es, [], t);
  }

  lemma RunWindow(cfg: Config, pow: real -> real, s: Breaker, es: seq<Event>, history: seq<Slot>, t: real)
    requires Inv(cfg, s) && IsRun(cfg, pow, s, es) && Represents(cfg, s, history)
    requires After(cfg, pow, s, es).now <= t
    ensures var u := After(cfg, pow, s, es);
            var all := InWindow(History(cfg, pow, s, es, history), NotBefore(t, cfg.responseTime));
            Linked(u) && Window(cfg, u, t) == Newest(all) && |all| <= |Window(cfg, u, t)| + 1
  {
    EveryRunKeepsInv(cfg, pow, s, es);
    RunRepresents(cfg, pow, s, es, history);
    RepresentsWindow(cfg, After(cfg, pow, s, es), History(cfg, pow, s, es, history), t);
  }

  lemma RepresentsWindow(cfg: Config, s: Breaker, history: seq<Slot>, t: real)
    requires 0.0 < cfg.responseTime && Linked(s) && Represents(cfg, s, history) && s.now <= t
    ensures var all := InWindow(history, NotBefore(t, cfg.responseTime));
            Window(cfg, s, t) == Newest(all) && |all| <= |Window(cfg, s, t)| + 1
  {
    BucketMonotone(s.now, t, cfg.responseTime);
    WindowOfNewest(history, NotBefore(t, cfg.responseTime));
    WindowHoldsAtMostEleven(history, t, cfg.responseTime);
  }
}
