/**
 Startup of a group of services: `start_services` and one `_start_service` task per service
 (`aiomisc/entrypoint.py`), as a transition system.

 The code of a task between two suspension points is one atomic step.  Cancelling a task either marks
 it, so that its next step begins with `CancelledError`, or is passed on to what it awaits: to the
 readiness waiter in `await ev_task`, to every unfinished startup task in `await gather(...)`.  A
 `shield` passes nothing on.  When services become ready, when their `start` ends and how, and who
 cancels what and how often, is the environment's choice.
 */
module EntrypointProtocol {
  import opened Basics

  datatype Exc = CancelledError | Error(code: int)

  /** A task owned by `_start_service`; `asked` says whether it was cancelled while running. */
  datatype Task = NotCreated | Running(asked: bool) | Done(exc: Option<Exc>)

  /** Where `_start_service` is suspended, or how it ended. */
  datatype Stage =
    | Created
    | WaitingFirst
    | AwaitingReady
    | Joining(cause: Exc, settled: bool)
    | Finished(exc: Option<Exc>)

  /** One `_start_service` task with the two tasks it owns: `start` is `start_task`, `ready` is
      `ev_task`.  `marked`: the next step begins with `CancelledError`; `seen`: the callback of the
      outer `gather` has run for it; `early`: the service raised before any task was created; `stopped`:
      the start task was cancelled by the `except` branch while it was running. */
  datatype Startup = Startup(
    stage: Stage,
    marked: bool,
    start: Task,
    ready: Task,
    eventSet: bool,
    seen: bool,
    early: bool,
    stopped: bool)

  /** The future that `asyncio.gather(*tasks)` returned. */
  datatype Gather = Pending | AllReturned | FirstRaised(exc: Exc)

  /** Where `start_services` is suspended, or how it ended: `receivers` is what POST_START raised. */
  datatype Group =
    | Gathering
    | Cleaning(cause: Exc, joined: set<nat>, settled: bool)
    | PostStart(exc: Option<Exc>)
    | Over(exc: Option<Exc>, receivers: Option<Exc>)

  /** `services` and `tasks` are the fields `_services` and `_tasks`; `disturbed` remembers whether
      anything was ever cancelled from outside. */
  datatype State = State(
    startups: seq<Startup>,
    services: set<nat>,
    tasks: set<nat>,
    group: Group,
    marked: bool,
    gather: Gather,
    cancelRequested: bool,
    disturbed: bool)

  datatype Event =
    | FirstRun(i: nat, early: Option<Exc>)
    | Wake(i: nat)
    | Settle(i: nat)
    | EventSet(i: nat)
    | ReadyEnds(i: nat)
    | StartEnds(i: nat, exc: Option<Exc>)
    | Collect(i: nat)
    | GroupWake
    | GroupSettle
    | PostStartEnds(raised: Option<Exc>)
    | CancelStartup(i: nat)
    | CancelReady(i: nat)
    | CancelGroup

  function Init(n: nat): State {
    State(seq(n, _ => Startup(Created, false, NotCreated, NotCreated, false, false, false, false)), {}, {},
          if n == 0 then PostStart(None) else Gathering, false, Pending, false, false)
  }

  predicate Cancels(e: Event) {
    e.CancelStartup? || e.CancelReady? || e.CancelGroup?
  }

  // ------------------------------------------------------- steps of one startup task

  /** `task.cancel()` of a task that may be done or may not exist yet. */
  function Ask(t: Task): Task {
    if t.Running? then Running(true) else t
  }

  /** `cancel()` of the startup task itself. */
  function Cancelled(c: Startup): Startup {
    if c.stage.Finished? then c
    else if c.stage.AwaitingReady? && c.ready.Running? then c.(ready := Running(true))
    else c.(marked := true)
  }

  /** Entering the `except` branch: both owned tasks are cancelled and joined. */
  function Abandoned(c: Startup, cause: Exc): Startup {
    c.(stage := Joining(cause, false), marked := false, start := Ask(c.start), ready := Ask(c.ready),
       stopped := c.start.Running?)
  }

  /** From `await ev_task` on, with that task done. */
  function AfterReady(c: Startup): Startup
    requires c.ready.Done?
  {
    if c.ready.exc.Some? then Abandoned(c, c.ready.exc.value)
    else if c.start.Done? && c.start.exc.Some? then Abandoned(c, c.start.exc.value)
    else c.(stage := Finished(None))
  }

  /** `AfterReady` reaches `self._tasks.add(start_task)`. */
  predicate Registers(c: Startup) {
    && (c.stage.WaitingFirst? || c.stage.AwaitingReady?) && !c.marked
    && c.ready == Done(None) && !c.start.Done?
  }

  predicate CanWake(c: Startup) {
    match c.stage
    case Created => false
    case WaitingFirst => c.marked || c.start.Done? || c.ready.Done?
    case AwaitingReady => c.marked || c.ready.Done?
    case Joining(_, settled) => c.marked || settled
    case Finished(_) => false
  }

  function Woken(c: Startup): Startup
    requires CanWake(c)
  {
    match c.stage
    case Joining(cause, settled) => c.(stage := if settled then Finished(Some(cause)) else c.stage, marked := false)
    case _ =>
      if c.marked then Abandoned(c, CancelledError)
      else if c.ready.Done? then AfterReady(c)
      else c.(stage := AwaitingReady)
  }

  /** The first step: cancelled before it ran, failed before it owned anything, or under way. */
  function Begun(c: Startup, early: Option<Exc>): Startup {
    if c.marked then c.(stage := Finished(Some(CancelledError)), marked := false)
    else if early.Some? then c.(stage := Finished(early), early := true)
    else c.(stage := WaitingFirst, start := Running(false), ready := Running(false))
  }

  /** The event belongs to one startup task. */
  predicate OfStartup(e: Event) {
    !e.GroupWake? && !e.GroupSettle? && !e.PostStartEnds? && !e.CancelGroup?
  }

  predicate CanMove(c: Startup, e: Event)
    requires OfStartup(e)
  {
    match e
    case FirstRun(_, _) => c.stage.Created?
    case Wake(_) => CanWake(c)
    case Settle(_) => c.stage.Joining? && !c.stage.settled && c.start.Done? && c.ready.Done?
    case EventSet(_) => !c.eventSet
    case ReadyEnds(_) => c.ready.Running? && (c.ready.asked || c.eventSet)
    case StartEnds(_, _) => c.start.Running?
    case Collect(_) => c.stage.Finished? && !c.seen
    case CancelStartup(_) => true
    case CancelReady(_) => true
  }

  function Moved(c: Startup, e: Event): Startup
    requires OfStartup(e) && CanMove(c, e)
  {
    match e
    case FirstRun(_, early) => Begun(c, early)
    case Wake(_) => Woken(c)
    case Settle(_) => c.(stage := c.stage.(settled := true))
    case EventSet(_) => c.(eventSet := true)
    case ReadyEnds(_) => c.(ready := Done(if c.ready.asked then Some(CancelledError) else None))
    case StartEnds(_, exc) => c.(start := Done(exc))
    case Collect(_) => c.(seen := true)
    case CancelStartup(_) => Cancelled(c)
    case CancelReady(_) => c.(ready := Ask(c.ready))
  }

  /** The step reaches `self._services.add(svc)`. */
  predicate Lists(c: Startup, e: Event) {
    e.FirstRun? && !c.marked && e.early.None?
  }

  /** The step reaches `self._tasks.add(start_task)`. */
  predicate Keeps(c: Startup, e: Event) {
    e.Wake? && Registers(c)
  }

  // ------------------------------------------------------------- steps of the group

  predicate AllSeen(cs: seq<Startup>) {
    forall i :: 0 <= i < |cs| ==> cs[i].seen
  }

  ghost predicate AllFinished(cs: seq<Startup>) {
    forall i :: 0 <= i < |cs| ==> cs[i].stage.Finished?
  }

  function Unfinished(cs: seq<Startup>): set<nat> {
    set i: nat | i < |cs| && !cs[i].stage.Finished?
  }

  function CancelAll(cs: seq<Startup>): seq<Startup> {
    seq(|cs|, i requires 0 <= i < |cs| => Cancelled(cs[i]))
  }

  /** The future of `gather` after its callback for a startup that ended with `exc`. */
  function Collected(s: State, cs: seq<Startup>, exc: Option<Exc>): Gather {
    if !s.gather.Pending? then s.gather
    else if exc.Some? then FirstRaised(exc.value)
    else if !AllSeen(cs) then Pending
    else if s.cancelRequested then FirstRaised(CancelledError) else AllReturned
  }

  function StartupMoved(s: State, e: Event): State
    requires OfStartup(e) && e.i < |s.startups| && CanMove(s.startups[e.i], e)
  {
    var c := s.startups[e.i];
    var cs := s.startups[e.i := Moved(c, e)];
    s.(startups := cs,
       services := if Lists(c, e) then s.services + {e.i} else s.services,
       tasks := if Keeps(c, e) then s.tasks + {e.i} else s.tasks,
       gather := if e.Collect? then Collected(s, cs, c.stage.exc) else s.gather,
       disturbed := s.disturbed || Cancels(e))
  }

  /** Entering the `except` branch of `start_services`: `cancel_tasks` on the whole group. */
  function Failed(s: State, cause: Exc): State {
    var joined := Unfinished(s.startups);
    s.(startups := CancelAll(s.startups), group := Cleaning(cause, joined, joined == {}), marked := false)
  }

  predicate CanWakeGroup(s: State) {
    match s.group
    case Gathering => s.marked || !s.gather.Pending?
    case Cleaning(_, _, settled) => s.marked || settled
    case _ => false
  }

  function GroupWoken(s: State): State
    requires CanWakeGroup(s)
  {
    match s.group
    case Cleaning(cause, _, settled) =>
      s.(group := if settled then PostStart(Some(cause)) else s.group, marked := false)
    case _ =>
      if s.marked then Failed(s, CancelledError)
      else if s.gather.FirstRaised? then Failed(s, s.gather.exc)
      else s.(group := PostStart(None))
  }

  /** `cancel()` of the task that runs `start_services`. */
  function GroupCancelled(s: State): State {
    if s.group.Gathering? && s.gather.Pending? && Unfinished(s.startups) != {}
    then s.(startups := CancelAll(s.startups), cancelRequested := true)
    else s.(marked := true)
  }

  ghost predicate Enabled(s: State, e: Event) {
    match e
    case GroupWake => CanWakeGroup(s)
    case GroupSettle =>
      && s.group.Cleaning? && !s.group.settled
      && (forall i :: i in s.group.joined && i < |s.startups| ==> s.startups[i].stage.Finished?)
    case PostStartEnds(_) => s.group.PostStart?
    case CancelGroup => !s.group.Over?
    case _ => e.i < |s.startups| && CanMove(s.startups[e.i], e)
  }

  function Apply(s: State, e: Event): State
    requires Enabled(s, e)
  {
    match e
    case GroupWake => GroupWoken(s)
    case GroupSettle => s.(group := s.group.(settled := true))
    case PostStartEnds(raised) => s.(group := Over(s.group.exc, raised), marked := false)
    case CancelGroup => GroupCancelled(s).(disturbed := true)
    case _ => StartupMoved(s, e)
  }

  // ------------------------------------------------------------------ the invariant

  /** What holds of one startup task; `listed` and `kept` say whether the service is in `_services` and
      its start task in `_tasks`. */
  predicate StartupOk(c: Startup, listed: bool, kept: bool) {
    && (c.ready == Done(None) ==> c.eventSet)
    && (c.ready.Done? ==> c.ready.exc == None || c.ready.exc == Some(CancelledError))
    && (c.seen ==> c.stage.Finished?)
    && (c.early ==> c.stage.Finished? && !listed)
    && (c.stopped ==> c.stage.Joining? || c.stage.Finished?)
    && match c.stage
       case Created => c.start.NotCreated? && c.ready.NotCreated? && !listed && !kept
       case WaitingFirst => !c.start.NotCreated? && !c.ready.NotCreated? && listed && !kept
       case AwaitingReady =>
         !c.start.NotCreated? && !c.ready.NotCreated? && listed && !kept && (c.marked ==> c.ready.Done?)
       case Joining(cause, settled) =>
         && Stopping(c.start) && Stopping(c.ready) && listed && !kept
         && (settled ==> c.start.Done? && c.ready.Done?)
         && (cause != CancelledError ==> c.start == Done(Some(cause)) && !c.stopped)
       case Finished(exc) => !c.marked && Joined(c, exc, listed, kept)
  }

  predicate Stopping(t: Task) {
    t == Running(true) || t.Done?
  }

  /** A finished startup leaves nothing behind: it owned no task, or its readiness waiter is done and
      its start task is done or, if the service got ready, registered. */
  predicate Joined(c: Startup, exc: Option<Exc>, listed: bool, kept: bool) {
    if !listed then
      && !kept && c.start.NotCreated? && c.ready.NotCreated? && exc.Some?
      && (c.early || exc == Some(CancelledError))
    else
      && c.ready.Done? && !c.start.NotCreated?
      && (exc.None? ==> c.ready == Done(None) && (kept || c.start == Done(None)))
      && (exc.Some? ==> c.start.Done? && !kept)
      && (exc.Some? && exc != Some(CancelledError) ==> c.start == Done(exc) && !c.stopped)
  }

  /** The startup cannot succeed any more. */
  predicate Doomed(c: Startup) {
    match c.stage
    case Created => c.marked
    case WaitingFirst => c.marked
    case AwaitingReady => c.marked || c.ready == Running(true) || (c.ready.Done? && c.ready.exc.Some?)
    case Joining(_, _) => true
    case Finished(_) => true
  }

  /** Nobody has cancelled anything here: a failure is the failure of `start`. */
  predicate Untouched(c: Startup) {
    && !c.marked
    && (c.stage.WaitingFirst? || c.stage.AwaitingReady? ==> c.ready == Running(false) || c.ready == Done(None))
    && (c.stage.Joining? ==> c.start == Done(Some(c.stage.cause)) && !c.stopped)
    && (c.stage.Finished? && c.stage.exc.Some? ==> Culprit(c, c.stage.exc.value))
  }

  /** The startup ended with `exc` because its service raised it, in `start` or before, and not because
      it was told to stop. */
  predicate Culprit(c: Startup, exc: Exc) {
    c.stage == Finished(Some(exc)) && (c.early || (c.start == Done(Some(exc)) && !c.stopped))
  }

  ghost predicate Blamed(cs: seq<Startup>, exc: Exc) {
    exists i :: 0 <= i < |cs| && Culprit(cs[i], exc)
  }

  ghost predicate StartupsOk(s: State) {
    forall i :: 0 <= i < |s.startups| ==> StartupOk(s.startups[i], i in s.services, i in s.tasks)
  }

  ghost predicate AllReturnedOk(cs: seq<Startup>) {
    forall i :: 0 <= i < |cs| ==> cs[i].stage == Finished(None)
  }

  ghost predicate GatherOk(s: State) {
    match s.gather
    case Pending => SeenReturned(s.startups) && (s.startups == [] || !AllSeen(s.startups))
    case AllReturned => AllReturnedOk(s.startups)
    case FirstRaised(exc) => Explained(s, exc)
  }

  ghost predicate SeenReturned(cs: seq<Startup>) {
    forall i :: 0 <= i < |cs| && cs[i].seen ==> cs[i].stage == Finished(None)
  }

  /** An exception of the group is that of a service, or it is the group's cancellation. */
  ghost predicate Explained(s: State, exc: Exc) {
    Blamed(s.startups, exc) || (exc == CancelledError && s.disturbed)
  }

  ghost predicate AllDoomed(cs: seq<Startup>) {
    forall i :: 0 <= i < |cs| ==> Doomed(cs[i])
  }

  ghost predicate AllUntouched(cs: seq<Startup>) {
    forall i :: 0 <= i < |cs| ==> Untouched(cs[i])
  }

  ghost predicate JoinedCover(cs: seq<Startup>, joined: set<nat>) {
    forall i: nat :: i < |cs| ==> i in joined || cs[i].stage.Finished?
  }

  ghost predicate GroupOk(s: State) {
    match s.group
    case Gathering => s.startups != [] && (s.cancelRequested ==> AllDoomed(s.startups))
    case Cleaning(cause, joined, settled) =>
      && AllDoomed(s.startups) && JoinedCover(s.startups, joined)
      && (settled ==> AllFinished(s.startups))
      && Explained(s, cause)
    case PostStart(exc) => AllFinished(s.startups) && ExcOk(s, exc)
    case Over(exc, _) => AllFinished(s.startups) && ExcOk(s, exc)
  }

  ghost predicate ExcOk(s: State, exc: Option<Exc>) {
    match exc
    case None => AllReturnedOk(s.startups)
    case Some(e) => Explained(s, e)
  }

  /** As long as nobody cancels anything, only services fail, and the group waits for its `gather`. */
  ghost predicate QuietOk(s: State) {
    !s.disturbed ==>
      && !s.marked && !s.cancelRequested
      && (s.group.Gathering? ==> AllUntouched(s.startups))
      && (s.gather.Pending? && s.startups != [] ==> s.group.Gathering?)
  }

  ghost predicate Inv(s: State) {
    StartupsOk(s) && GatherOk(s) && GroupOk(s) && QuietOk(s)
  }
}
