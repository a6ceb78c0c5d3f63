/**
 The state machine of `aiomisc/circuit_breaker.py`.  A call enters `context()`, which may change the
 phase and admits or refuses the call; an admitted call ends at any later time and writes its outcome
 to the Counter it was given on entry, even if that Counter has left the window meanwhile.

 One entry reads the clock up to four times; the readings are separate and do not decrease.
 `random()` is a draw in [0, 1), and `2 ** x` is a parameter `pow` of the model.
 */
module BreakerProtocol {
  import opened Basics
  import opened BreakerWindow

  datatype Phase = Passing | Broken | Recovering

  /** A Counter: its FAIL, OK and TOTAL entries. */
  datatype Tally = Tally(fail: nat, ok: nat, total: nat)

  datatype Config = Config(
    errorRatio: real,
    responseTime: real,
    passingTime: real,
    brokenTime: real,
    recoveryTime: real)

  datatype Stats = Stats(
    calls: nat,
    passing: nat,
    broken: nat,
    recovering: nat,
    recoveringOk: nat,
    recoveringFailed: nat)

  datatype Breaker = Breaker(
    phase: Phase,
    stuckUntil: real,
    recoveryAt: real,
    deque: seq<Slot>,
    tallies: seq<Tally>,
    stats: Stats,
    now: real,
    inflight: multiset<nat>)

  /** The clock readings of one entry: `counter()`, `_compute_state`, `recovery_ratio`, `_on_recover`. */
  datatype Clock = Clock(count: real, compute: real, ratio: real, admit: real) {
    predicate From(t: real) {
      t <= count <= compute <= ratio <= admit
    }
  }

  /** A counted failure, a success, or an exception that counts as neither. */
  datatype Outcome = Success | Failure | Ignored

  datatype Event = Enter(clock: Clock, draw: real) | Leave(counter: nat, outcome: Outcome)

  datatype Verdict = Admitted(counter: nat) | Refused

  function Init(): Breaker {
    Breaker(Passing, 0.0, 0.0, [], [], Stats(0, 0, 0, 0, 0, 0), 0.0, multiset{})
  }

  // ------------------------------------------------------------ failing buckets

  /** The bucket has a completed call and its share of failures reaches the threshold. */
  predicate Failing(cfg: Config, tally: Tally) {
    0 < tally.total && cfg.errorRatio <= tally.fail as real / tally.total as real
  }

  function FailingCount(cfg: Config, slots: seq<Slot>, tallies: seq<Tally>): nat
    requires forall i :: 0 <= i < |slots| ==> slots[i].counter < |tallies|
  {
    if slots == [] then 0
    else
      FailingCount(cfg, slots[..|slots| - 1], tallies)
      + if Failing(cfg, tallies[slots[|slots| - 1].counter]) then 1 else 0
  }

  /** `recovery_ratio`: the share of in-window buckets that are failing. */
  function Ratio(cfg: Config, window: seq<Slot>, tallies: seq<Tally>): real
    requires forall i :: 0 <= i < |window| ==> window[i].counter < |tallies|
  {
    if window == [] then 0.0 else FailingCount(cfg, window, tallies) as real / |window| as real
  }

  lemma {:induction false} InWindowKeeps(slots: seq<Slot>, notBefore: real)
    ensures forall i :: 0 <= i < |InWindow(slots, notBefore)| ==> InWindow(slots, notBefore)[i] in slots
  {
    if slots != [] {
      InWindowKeeps(slots[..|slots| - 1], notBefore);
    }
  }

  ghost predicate Linked(s: Breaker) {
    forall i :: 0 <= i < |s.deque| ==> s.deque[i].counter < |s.tallies|
  }

  ghost function Window(cfg: Config, s: Breaker, t: real): (r: seq<Slot>)
    requires 0.0 < cfg.responseTime && Linked(s)
    ensures forall i :: 0 <= i < |r| ==> r[i] in s.deque && r[i].counter < |s.tallies|
  {
    InWindowKeeps(s.deque, NotBefore(t, cfg.responseTime));
    InWindow(s.deque, NotBefore(t, cfg.responseTime))
  }

  // ------------------------------------------------------------------ the steps

  /** `counter()`: the call's Counter is that of the newest slot. */
  function WithCounter(cfg: Config, s: Breaker, t: real): (r: Breaker)
    requires 0.0 < cfg.responseTime
    ensures r.deque != []
  {
    var key := Bucket(t, cfg.responseTime);
    s.(deque := Touched(s.deque, key, |s.tallies|),
       tallies := if IsCurrent(s.deque, key) then s.tallies else s.tallies + [Tally(0, 0, 0)],
       now := t)
  }

  function Trip(cfg: Config, s: Breaker, t: real): Breaker {
    s.(stuckUntil := t + cfg.brokenTime, phase := Broken, deque := [])
  }

  /** `_compute_state` at time `t`, with the buckets read at time `u`. */
  ghost function Computed(cfg: Config, s: Breaker, t: real, u: real): Breaker
    requires 0.0 < cfg.responseTime && Linked(s)
  {
    if t < s.stuckUntil then s
    else if s.phase.Broken? then s.(phase := Recovering, recoveryAt := t)
    else if s.phase.Passing? && |s.deque| < BUCKET_COUNT then s
    else
      var ratio := Ratio(cfg, Window(cfg, s, u), s.tallies);
      if s.phase.Passing? then
        if 1.0 <= ratio then Trip(cfg, s, t) else s
      else if 0.5 * cfg.errorRatio <= ratio then Trip(cfg, s, t)
      else if cfg.recoveryTime <= t - s.recoveryAt
      then s.(stuckUntil := t + cfg.passingTime, phase := Passing)
      else s
  }

  /** The exponent of `_on_recover`. */
  function Exponent(cfg: Config, recoveryAt: real, t: real): real
    requires cfg.recoveryTime != 0.0
  {
    (t - recoveryAt) / cfg.recoveryTime
  }

  ghost predicate Admits(cfg: Config, pow: real -> real, recoveryAt: real, t: real, draw: real)
    requires cfg.recoveryTime != 0.0
  {
    draw + 1.0 < pow(Exponent(cfg, recoveryAt, t))
  }

  ghost function Dispatch(cfg: Config, pow: real -> real, s: Breaker, counter: nat, t: real, draw: real): Verdict
    requires cfg.recoveryTime != 0.0
  {
    match s.phase
    case Passing => Admitted(counter)
    case Broken => Refused
    case Recovering => if Admits(cfg, pow, s.recoveryAt, t, draw) then Admitted(counter) else Refused
  }

  function Counted(stats: Stats, phase: Phase, admitted: bool): Stats {
    var st := stats.(calls := stats.calls + 1);
    match phase
    case Passing => st.(passing := st.passing + 1)
    case Broken => st.(broken := st.broken + 1)
    case Recovering =>
      st.(recovering := st.recovering + 1,
          recoveringOk := st.recoveringOk + (if admitted then 1 else 0),
          recoveringFailed := st.recoveringFailed + (if admitted then 0 else 1))
  }

  ghost predicate Enabled(s: Breaker, e: Event) {
    match e
    case Enter(clock, draw) => clock.From(s.now) && 0.0 <= draw < 1.0
    case Leave(counter, _) => counter in s.inflight && counter < |s.tallies|
  }

  /** The state in which an entering call is dispatched: counter found, phase computed. */
  ghost function Dispatched(cfg: Config, s: Breaker, clock: Clock): Breaker
    requires 0.0 < cfg.responseTime && Linked(s)
  {
    Computed(cfg, WithCounter(cfg, s, clock.count), clock.compute, clock.ratio)
  }

  ghost function VerdictOf(cfg: Config, pow: real -> real, s: Breaker, clock: Clock, draw: real): Verdict
    requires 0.0 < cfg.responseTime && cfg.recoveryTime != 0.0 && Linked(s)
  {
    var s1 := WithCounter(cfg, s, clock.count);
    Dispatch(cfg, pow, Dispatched(cfg, s, clock), s1.deque[|s1.deque| - 1].counter, clock.admit, draw)
  }

  /** `context()` up to the `yield` or the CircuitBroken. */
  ghost function Entered(cfg: Config, pow: real -> real, s: Breaker, clock: Clock, draw: real): Breaker
    requires 0.0 < cfg.responseTime && cfg.recoveryTime != 0.0 && Linked(s)
  {
    var s2 := Dispatched(cfg, s, clock);
    var v := VerdictOf(cfg, pow, s, clock, draw);
    s2.(stats := Counted(s2.stats, s2.phase, v.Admitted?),
        now := clock.admit,
        inflight := if v.Admitted? then s2.inflight + multiset{v.counter} else s2.inflight)
  }

  function Scored(tally: Tally, outcome: Outcome): Tally {
    Tally(tally.fail + (if outcome.Failure? then 1 else 0),
          tally.ok + (if outcome.Success? then 1 else 0),
          tally.total + 1)
  }

  /** The end of an admitted call: `_on_passing` after its `yield`. */
  function Left(s: Breaker, counter: nat, outcome: Outcome): Breaker
    requires counter < |s.tallies|
  {
    s.(tallies := s.tallies[counter := Scored(s.tallies[counter], outcome)],
       inflight := s.inflight - multiset{counter})
  }

  ghost function Apply(cfg: Config, pow: real -> real, s: Breaker, e: Event): Breaker
    requires 0.0 < cfg.responseTime && cfg.recoveryTime != 0.0 && Linked(s) && Enabled(s, e)
  {
    match e
    case Enter(clock, draw) => Entered(cfg, pow, s, clock, draw)
    case Leave(counter, outcome) => Left(s, counter, outcome)
  }

  // -------------------------------------------------------------- the invariant

  function TotalOf(tally: Tally): nat {
    tally.total
  }

  function Completed(tallies: seq<Tally>): nat {
    Sum(TotalOf, tallies)
  }

  ghost predicate DequeOk(cfg: Config, s: Breaker)
    requires 0.0 < cfg.responseTime
  {
    && Linked(s)
    && |s.deque| <= BUCKET_COUNT
    && Increasing(s.deque) && Numbered(s.deque)
    && (forall i :: 0 <= i < |s.deque| ==> s.deque[i].key <= Bucket(s.now, cfg.responseTime))
  }

  ghost predicate TalliesOk(s: Breaker) {
    && (forall i :: 0 <= i < |s.tallies| ==> s.tallies[i].ok + s.tallies[i].fail <= s.tallies[i].total)
    && (forall c :: c in s.inflight ==> c < |s.tallies|)
    && Completed(s.tallies) + |s.inflight| == s.stats.passing + s.stats.recoveringOk
  }

  predicate StatsOk(stats: Stats) {
    && stats.calls == stats.passing + stats.broken + stats.recovering
    && stats.recovering == stats.recoveringOk + stats.recoveringFailed
  }

  /** Between calls: the window is in order, no Counter counts more outcomes than calls, every
      admitted call is in flight or counted once, and the call counters add up. */
  ghost predicate Inv(cfg: Config, s: Breaker) {
    && 0.0 < cfg.responseTime && cfg.recoveryTime != 0.0
    && DequeOk(cfg, s)
    && TalliesOk(s)
    && StatsOk(s.stats)
    && (s.phase.Recovering? ==> s.stuckUntil <= s.recoveryAt <= s.now)
  }
}
