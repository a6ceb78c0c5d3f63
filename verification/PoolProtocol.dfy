/**
 The connection pool of `aiomisc/pool.py` before `close`: clients acquire and release instances,
 the environment decides what `_create_instance` and `_check_instance` do.

 Two counters exist only in the model: `raised` counts checks that raised, after which the source
 recycles the instance and hands it out all the same, and `dropped` counts checks that were
 cancelled, after which nobody has the instance.
 */
module PoolProtocol {
  import opened Basics

  /** Where a client of `acquire` is. */
  datatype Client =
    | Creating
    | Waiting
    | Checking(instance: nat)
    | Using(instance: nat)
    | Over

  datatype Config = Config(maxSize: nat, recycle: Option<real>)

  datatype State = State(
    now: real,
    permits: nat,
    len: int,
    clients: seq<Client>,
    idle: seq<nat>,
    used: set<nat>,
    bin: seq<nat>,
    destroyed: set<nat>,
    times: map<nat, real>,
    born: seq<real>,
    lost: nat,
    raised: nat,
    dropped: nat)

  /** `deadline` is `recycle * (1 + random())`; `later` is the second clock reading of `__release`. */
  datatype Event =
    | Tick(now: real)
    | Acquire
    | Created(client: nat, deadline: real)
    | CreateFailed(client: nat)
    | Got(client: nat)
    | GaveUp(client: nat)
    | CheckPassed(client: nat)
    | CheckRefused(client: nat)
    | CheckRaised(client: nat)
    | CheckCancelled(client: nat)
    | Release(client: nat, later: real)
    | Destroy

  function Init(cfg: Config): State {
    State(0.0, cfg.maxSize, 0, [], [], {}, [], {}, map[], [], 0, 0, 0)
  }

  predicate Holds(c: Client) {
    c.Checking? || c.Using?
  }

  ghost predicate Enabled(cfg: Config, s: State, e: Event) {
    match e
    case Tick(t) => s.now <= t
    case Acquire => true
    case Created(c, d) =>
      && c < |s.clients| && s.clients[c].Creating?
      && (cfg.recycle.Some? ==> cfg.recycle.value <= d < 2.0 * cfg.recycle.value)
    case CreateFailed(c) => c < |s.clients| && s.clients[c].Creating?
    case Got(c) => c < |s.clients| && s.clients[c].Waiting? && s.idle != []
    case GaveUp(c) => c < |s.clients| && s.clients[c].Waiting?
    case CheckPassed(c) => c < |s.clients| && s.clients[c].Checking?
    case CheckRefused(c) => c < |s.clients| && s.clients[c].Checking?
    case CheckRaised(c) => c < |s.clients| && s.clients[c].Checking?
    case CheckCancelled(c) => c < |s.clients| && s.clients[c].Checking?
    case Release(c, later) => c < |s.clients| && s.clients[c].Using? && s.now <= later
    case Destroy => s.bin != []
  }

  // ------------------------------------------------------------------ the steps

  function SetClient(s: State, c: nat, client: Client): State
    requires c < |s.clients|
  {
    s.(clients := s.clients[c := client])
  }

  /** `__acquire` up to its first suspension: create if a permit is free, else wait for an idle one. */
  function Entry(s: State): (Client, nat) {
    if s.permits == 0 then (Waiting, 0) else (Creating, s.permits - 1)
  }

  /** `__recycle_instance`. */
  function Recycled(s: State, i: nat): State {
    s.(len := s.len - 1,
       permits := s.permits + 1,
       times := s.times - {i},
       used := s.used - {i},
       bin := s.bin + [i])
  }

  /** The permit that the instance occupied is free again, the instance is in the bin and in no other
      table, and every other instance keeps its entries. */
  ghost predicate Forgotten(s: State, u: State, i: nat) {
    && u.len + u.permits == s.len + s.permits && u.permits == s.permits + 1
    && i !in u.used && i !in u.times && i in u.bin
    && (forall j :: j != i ==> (j in u.used <==> j in s.used) && (j in u.bin <==> j in s.bin))
    && (forall j :: j != i ==> (j in u.times <==> j in s.times))
    && (forall j :: j in u.times ==> u.times[j] == s.times[j])
  }

  function Made(cfg: Config, s: State, c: nat, deadline: real): State
    requires c < |s.clients|
  {
    var i := |s.born|;
    SetClient(s, c, Waiting).(
      len := s.len + 1,
      born := s.born + [s.now],
      times := if cfg.recycle.Some? then s.times[i := s.now + deadline] else s.times,
      idle := s.idle + [i])
  }

  /** The deadline that `__release` reads: a missing one is entered as the current time. */
  function Deadlines(s: State, i: nat): map<nat, real> {
    if i in s.times then s.times else s.times[i := s.now]
  }

  function Released(cfg: Config, s: State, c: nat, later: real): State
    requires c < |s.clients| && s.clients[c].Using?
  {
    var i := s.clients[c].instance;
    var s1 := SetClient(s, c, Over).(now := later, used := s.used - {i});
    if cfg.recycle.None? then s1.(idle := s1.idle + [i])
    else
      var s2 := s1.(times := Deadlines(s, i));
      if s2.times[i] < later then Recycled(s2, i) else s2.(idle := s2.idle + [i])
  }

  ghost function Apply(cfg: Config, s: State, e: Event): State
    requires Enabled(cfg, s, e)
  {
    match e
    case Tick(t) => s.(now := t)
    case Acquire =>
      s.(clients := s.clients + [Entry(s).0], permits := Entry(s).1)
    case Created(c, d) => Made(cfg, s, c, d)
    case CreateFailed(c) => SetClient(s, c, Over).(lost := s.lost + 1)
    case Got(c) => SetClient(s, c, Checking(s.idle[0])).(idle := s.idle[1..])
    case GaveUp(c) => SetClient(s, c, Over)
    case CheckPassed(c) =>
      SetClient(s, c, Using(s.clients[c].instance)).(used := s.used + {s.clients[c].instance})
    case CheckRefused(c) =>
      var s1 := Recycled(s, s.clients[c].instance);
      SetClient(s1, c, Entry(s1).0).(permits := Entry(s1).1)
    case CheckRaised(c) =>
      var i := s.clients[c].instance;
      var s1 := Recycled(s, i);
      SetClient(s1, c, Using(i)).(used := s1.used + {i}, raised := s1.raised + 1)
    case CheckCancelled(c) => SetClient(s, c, Over).(dropped := s.dropped + 1)
    case Release(c, later) => Released(cfg, s, c, later)
    case Destroy => s.(bin := s.bin[1..], destroyed := s.destroyed + {s.bin[0]})
  }

  // -------------------------------------------------------------- the invariant

  function IsCreating(c: Client): nat {
    if c.Creating? then 1 else 0
  }

  function IsHolding(c: Client): nat {
    if Holds(c) then 1 else 0
  }

  function CreatingCount(clients: seq<Client>): nat {
    Sum(IsCreating, clients)
  }

  function HoldingCount(clients: seq<Client>): nat {
    Sum(IsHolding, clients)
  }

  /** Instances that are idle, being checked, or in use. */
  function LiveCount(s: State): nat {
    |s.idle| + HoldingCount(s.clients)
  }

  /** Permits are conserved on every run; the live instances differ from `_len` exactly by the checks
      that raised or were cancelled. */
  ghost predicate Conserved(cfg: Config, s: State) {
    && s.permits + CreatingCount(s.clients) + s.len + s.lost == cfg.maxSize
    && s.len == LiveCount(s) + s.dropped - s.raised
  }

  /** Every live instance has exactly one place: one slot of the idle queue or one client. */
  ghost predicate Exclusive(s: State) {
    && (forall i, j :: 0 <= i < j < |s.idle| ==> s.idle[i] != s.idle[j])
    && (forall c, d :: 0 <= c < d < |s.clients| && Holds(s.clients[c]) && Holds(s.clients[d]) ==>
          s.clients[c].instance != s.clients[d].instance)
    && (forall c, i :: 0 <= c < |s.clients| && Holds(s.clients[c]) && 0 <= i < |s.idle| ==>
          s.clients[c].instance != s.idle[i])
  }

  /** No client but `c` is checking or using the instance. */
  ghost predicate Alone(clients: seq<Client>, i: nat, c: nat) {
    forall d :: 0 <= d < |clients| && d != c && Holds(clients[d]) ==> clients[d].instance != i
  }

  /** Every instance was made, and `_used` is what the clients use. */
  ghost predicate Known(s: State) {
    && (forall i :: 0 <= i < |s.idle| ==> s.idle[i] < |s.born|)
    && (forall c :: 0 <= c < |s.clients| && Holds(s.clients[c]) ==> s.clients[c].instance < |s.born|)
    && (forall i :: i in s.times ==> i < |s.born|)
    && (forall k :: 0 <= k < |s.bin| ==> s.bin[k] < |s.born|)
    && (forall i :: i in s.destroyed ==> i < |s.born|)
  }

  ghost predicate UsedOk(s: State) {
    forall i :: i in s.used <==> InUse(s.clients, i)
  }

  ghost predicate InUse(clients: seq<Client>, i: nat) {
    exists c :: 0 <= c < |clients| && clients[c] == Using(i)
  }

  ghost predicate Inv(cfg: Config, s: State) {
    Conserved(cfg, s) && Exclusive(s) && Known(s) && UsedOk(s)
  }

  /** The instance is on its way to be destroyed, or gone. */
  ghost predicate Retired(s: State, i: nat) {
    i in s.bin || i in s.destroyed
  }

  /** No instance that is idle, being checked or in use has been recycled. */
  ghost predicate Healthy(s: State) {
    && (forall i :: 0 <= i < |s.idle| ==> !Retired(s, s.idle[i]))
    && (forall c :: 0 <= c < |s.clients| && Holds(s.clients[c]) ==> !Retired(s, s.clients[c].instance))
  }
}
