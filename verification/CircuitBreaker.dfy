/**
 `CircuitBreaker` of `aiomisc/circuit_breaker.py`: its fields are updated in place by `counter`,
 `_compute_state` and `context`; `recovery_ratio` walks the deque newest first and stops early.
 Counters are numbered in the order they are made, so that a call keeps writing to the Counter it
 was given after the deque has let go of it.
 */
module CircuitBreaker {
  import opened Basics
  import opened BreakerWindow
  import opened BreakerProtocol
  import Proofs = BreakerProofs

  datatype ValueError = BadResponseTime | BadErrorRatio

  /** `x or default`: both None and zero take the default. */
  function Or(x: Option<real>, default: real): (r: real)
    ensures default != 0.0 ==> r != 0.0
  {
    if x.Some? && x.value != 0.0 then x.value else default
  }

  /** A duration that was given and is not zero. */
  predicate Given(x: Option<real>) {
    x != None && x != Some(0.0)
  }

  /** The constructor.  Its test of the error ratio, `0.0 > error_ratio >= 1.0`, never holds. */
  method Make(errorRatio: real, responseTime: real, recoveryTime: Option<real>,
              brokenTime: Option<real>, passingTime: Option<real>)
    returns (r: Result<Breaking, ValueError>)
    ensures r.Ok? <==> 0.0 < responseTime
    ensures r.Err? ==> r.error == BadResponseTime
    ensures r.Ok? ==>
              && fresh(r.value) && r.value.Valid() && r.value.View() == Init()
              && r.value.cfg.errorRatio == errorRatio && r.value.cfg.responseTime == responseTime
              && (Given(passingTime) ==> r.value.cfg.passingTime == passingTime.value)
              && (Given(brokenTime) ==> r.value.cfg.brokenTime == brokenTime.value)
              && (Given(recoveryTime) ==> r.value.cfg.recoveryTime == recoveryTime.value)
              && (!Given(passingTime) ==> r.value.cfg.passingTime == responseTime)
              && (!Given(brokenTime) ==> r.value.cfg.brokenTime == responseTime)
              && (!Given(recoveryTime) ==> r.value.cfg.recoveryTime == responseTime)
  {
    if responseTime <= 0.0 {
      return Err(BadResponseTime);
    }
    if 0.0 > errorRatio && errorRatio >= 1.0 {
      return Err(BadErrorRatio);
    }
    var b := new Breaking(Config(errorRatio, responseTime, Or(passingTime, responseTime),
                                 Or(brokenTime, responseTime), Or(recoveryTime, responseTime)));
    return Ok(b);
  }

  /** The count does not depend on the direction of the walk. */
  lemma {:induction false} FailingCountPrepend(cfg: Config, slot: Slot, slots: seq<Slot>, tallies: seq<Tally>)
    requires slot.counter < |tallies|
    requires forall i :: 0 <= i < |slots| ==> slots[i].counter < |tallies|
    ensures FailingCount(cfg, [slot] + slots, tallies)
            == FailingCount(cfg, slots, tallies) + if Failing(cfg, tallies[slot.counter]) then 1 else 0
  {
    var all := [slot] + slots;
    if slots == [] {
      assert all[..0] == [];
    } else {
      var n := |slots| - 1;
      assert all[..|all| - 1] == [slot] + slots[..n];
      FailingCountPrepend(cfg, slot, slots[..n], tallies);
    }
  }

  /** The newest-first walk of `__gen_statistic`, with the counting of `recovery_ratio`. */
  method Walk(cfg: Config, slots: seq<Slot>, tallies: seq<Tally>, notBefore: real)
    returns (totalCount: nat, upperCount: nat)
    requires Increasing(slots) && forall i :: 0 <= i < |slots| ==> slots[i].counter < |tallies|
    ensures totalCount == |InWindow(slots, notBefore)|
    ensures forall i :: 0 <= i < |InWindow(slots, notBefore)| ==> InWindow(slots, notBefore)[i].counter < |tallies|
    ensures upperCount == FailingCount(cfg, InWindow(slots, notBefore), tallies)
  {
    hide InWindow;
    totalCount, upperCount := 0, 0;
    var idx := |slots|;
    while 0 < idx && notBefore <= slots[idx - 1].key as real
      invariant 0 <= idx <= |slots| && totalCount == |slots| - idx
      invariant upperCount == FailingCount(cfg, slots[idx..], tallies)
      invariant forall i :: idx <= i < |slots| ==> notBefore <= slots[i].key as real
    {
      idx := idx - 1;
      assert slots[idx..] == [slots[idx]] + slots[idx + 1..];
      FailingCountPrepend(cfg, slots[idx], slots[idx + 1..], tallies);
      totalCount := totalCount + 1;
      var tally := tallies[slots[idx].counter];
      if tally.total != 0 {
        var failRatio := tally.fail as real / tally.total as real;
        if failRatio >= cfg.errorRatio {
          upperCount := upperCount + 1;
        }
      }
    }
    WindowAt(slots, notBefore, idx);
  }

  class Breaking {
    const cfg: Config
    var phase: Phase
    var stuckUntil: real
    var recoveryAt: real
    var statistic: seq<Slot>
    var tallies: seq<Tally>
    var counters: Stats
    ghost var now: real
    ghost var inflight: multiset<nat>

    ghost function View(): Breaker
      reads this
    {
      Breaker(phase, stuckUntil, recoveryAt, statistic, tallies, counters, now, inflight)
    }

    ghost predicate Valid()
      reads this
    {
      Inv(cfg, View())
    }

    constructor (cfg: Config)
      requires 0.0 < cfg.responseTime && cfg.recoveryTime != 0.0
      ensures Valid() && View() == Init() && this.cfg == cfg
    {
      this.cfg := cfg;
      phase, stuckUntil, recoveryAt := Passing, 0.0, 0.0;
      statistic, tallies, counters := [], [], Stats(0, 0, 0, 0, 0, 0);
      now, inflight := 0.0, multiset{};
      new;
      Proofs.InitOk(cfg);
    }

    /** `counter()` at time `t`. */
    method CurrentCounter(t: real) returns (counter: nat)
      requires Valid() && now <= t
      modifies this`statistic, this`tallies, this`now
      ensures Valid() && View() == WithCounter(cfg, old(View()), t)
      ensures counter == statistic[|statistic| - 1].counter < |tallies|
    {
      hide Inv, Bucket;
      ghost var s := View();
      Proofs.WithCounterOk(cfg, s, t);
      Proofs.InvGives(cfg, s);
      Proofs.InvGives(cfg, WithCounter(cfg, s, t));
      var current := Bucket(t, cfg.responseTime);
      now := t;
      if |statistic| == 0 || statistic[|statistic| - 1].key != current {
        counter := |tallies|;
        tallies := tallies + [Tally(0, 0, 0)];
        statistic := Newest(statistic + [Slot(current, counter)]);
      } else {
        counter := statistic[|statistic| - 1].counter;
      }
      assert View() == WithCounter(cfg, s, t);
    }

    /** `recovery_ratio` at time `u`: the walk with its early `break` sees exactly the window. */
    method RecoveryRatio(u: real) returns (ratio: real)
      requires Valid()
      ensures ratio == Ratio(cfg, Window(cfg, View(), u), tallies)
    {
      var totalCount, upperCount := Walk(cfg, statistic, tallies, NotBefore(u, cfg.responseTime));
      ratio := if totalCount == 0 then 0.0 else upperCount as real / totalCount as real;
    }

    /** `_compute_state` at time `t`, reading the buckets at time `u`. */
    method ComputeState(t: real, u: real)
      requires Valid() && now <= t
      modifies this`phase, this`stuckUntil, this`recoveryAt, this`statistic
      ensures View() == Computed(cfg, old(View()), t, u)
    {
      if t < stuckUntil {
        return;
      }
      if phase.Broken? {
        phase, recoveryAt := Recovering, t;
        return;
      }
      if phase.Passing? && |statistic| < BUCKET_COUNT {
        return;
      }
      var ratio := RecoveryRatio(u);
      if phase.Passing? {
        if 1.0 <= ratio {
          stuckUntil, phase, statistic := t + cfg.brokenTime, Broken, [];
        }
        return;
      }
      if 0.5 * cfg.errorRatio <= ratio {
        stuckUntil, phase, statistic := t + cfg.brokenTime, Broken, [];
        return;
      }
      if cfg.recoveryTime <= t - recoveryAt {
        stuckUntil, phase := t + cfg.passingTime, Passing;
      }
    }

    /** The branches of `context()` and `_on_recover` on the computed phase. */
    method DispatchCall(counter: nat, t: real, draw: real, pow: real -> real) returns (verdict: Verdict)
      requires cfg.recoveryTime != 0.0
      modifies this`counters
      ensures verdict == Dispatch(cfg, pow, View(), counter, t, draw)
      ensures counters == Counted(old(counters), phase, verdict.Admitted?)
    {
      counters := counters.(calls := counters.calls + 1);
      verdict := Refused;
      if phase.Passing? {
        counters := counters.(passing := counters.passing + 1);
        verdict := Admitted(counter);
      } else if phase.Broken? {
        counters := counters.(broken := counters.broken + 1);
      } else {
        counters := counters.(recovering := counters.recovering + 1);
        if draw + 1.0 < pow((t - recoveryAt) / cfg.recoveryTime) {
          counters := counters.(recoveringOk := counters.recoveringOk + 1);
          verdict := Admitted(counter);
        } else {
          counters := counters.(recoveringFailed := counters.recoveringFailed + 1);
        }
      }
    }

    /** `context()` up to its `yield`, or to the CircuitBroken it raises. */
    method EnterContext(clock: Clock, draw: real, pow: real -> real) returns (verdict: Verdict)
      requires Valid() && Enabled(View(), Enter(clock, draw))
      modifies this
      ensures Valid() && View() == Apply(cfg, pow, old(View()), Enter(clock, draw))
      ensures verdict == VerdictOf(cfg, pow, old(View()), clock, draw)
    {
      hide Bucket, Computed, Ratio, TalliesOk, StatsOk;
      ghost var s := View();
      Proofs.EnteredOk(cfg, pow, s, clock, draw);
      var counter := CurrentCounter(clock.count);
      ComputeState(clock.compute, clock.ratio);
      assert View() == Dispatched(cfg, s, clock);
      verdict := DispatchCall(counter, clock.admit, draw, pow);
      assert verdict == VerdictOf(cfg, pow, s, clock, draw);
      now := clock.admit;
      if verdict.Admitted? {
        inflight := inflight + multiset{counter};
      }
    }

    /** The end of an admitted call: `_on_passing` after its `yield`. */
    method LeaveContext(counter: nat, outcome: Outcome)
      requires Valid() && Enabled(View(), Leave(counter, outcome))
      modifies this`tallies, this`inflight
      ensures Valid() && View() == Left(old(View()), counter, outcome)
    {
      Proofs.LeftOk(cfg, View(), counter, outcome);
      var tally := tallies[counter];
      if outcome.Success? {
        tally := tally.(ok := tally.ok + 1);
      } else if outcome.Failure? {
        tally := tally.(fail := tally.fail + 1);
      }
      tallies := tallies[counter := tally.(total := tally.total + 1)];
      inflight := inflight - multiset{counter};
    }
  }
}
