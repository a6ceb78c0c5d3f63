/**
 `ThreadPoolExecutor` of `aiomisc/thread_pool.py`: the methods that run under its write lock.
 What the threads and the event loop do meanwhile is in `ThreadPoolProtocol`.
 */
module ThreadPool {
  import opened Basics
  import opened ThreadPoolProtocol
  import Proofs = ThreadPoolProofs

  class ThreadPoolExecutor {
    const maxWorkers: int
    var stages: seq<Stage>
    var taken: seq<nat>
    var queue: seq<Item>
    var fates: seq<Fate>
    var tracked: set<nat>
    var posted: seq<(nat, bool)>
    var delivering: Option<(nat, bool)>
    var loopClosed: bool
    var closer: Closer
    var stats: Stats

    ghost function View(): State
      reads this
    {
      State(stages, taken, queue, fates, tracked, posted, delivering, loopClosed, closer, stats)
    }

    ghost predicate Valid()
      reads this
    {
      Inv(maxWorkers, View())
    }

    /** Two threads, or one if that is the limit. */
    constructor (maxWorkers: int)
      ensures Valid() && View() == Init(maxWorkers) && this.maxWorkers == maxWorkers
      ensures |stages| == if 1 < maxWorkers then 2 else 1
    {
      hide Inv, Times;
      this.maxWorkers := maxWorkers;
      stages, taken, queue, fates, tracked, posted := [], [], [], [], {}, [];
      delivering, loopClosed, closer, stats := None, false, Open, Stats(0, 0, 0, 0);
      new;
      var n := InitialThreads(maxWorkers);
      StartThreads(n);
      assert [] + Times(AtLoop, n) == Times(AtLoop, n) && [] + Times(0, n) == Times(0, n);
      assert View() == Init(maxWorkers);
      Proofs.InitOk(maxWorkers);
    }

    /** The loop over `_start_thread`: each new thread begins at the head of its loop. */
    method StartThreads(n: nat)
      modifies this`stages, this`taken
      ensures stages == old(stages) + Times(AtLoop, n)
      ensures taken == old(taken) + Times(0, n)
    {
      for i := 0 to n
        invariant stages == old(stages) + Times(AtLoop, i)
        invariant taken == old(taken) + Times(0, i)
      {
        stages := stages + [AtLoop];
        taken := taken + [0];
        assert Times(AtLoop, i) + [AtLoop] == Times(AtLoop, i + 1);
        assert Times(0, i) + [0] == Times(0, i + 1);
      }
    }

    /** `_adjust_thread_count`: the pool doubles, up to its limit. */
    method AdjustThreadCount()
      modifies this`stages, this`taken
      ensures stages == old(stages) + Times(AtLoop, Growth(old(|stages|), maxWorkers))
      ensures taken == old(taken) + Times(0, Growth(old(|stages|), maxWorkers))
      ensures var n := old(|stages|);
              |stages| == if 2 * n <= maxWorkers then 2 * n else if n <= maxWorkers then maxWorkers else n
    {
      var poolSize := |stages|;
      var newThreads := Min(poolSize * 2, maxWorkers) - poolSize;
      if newThreads <= 0 {
        return;
      }
      StartThreads(newThreads);
    }

    /** More threads, if the futures outnumber them and the limit allows. */
    method GrowIfNeeded()
      modifies this`stages, this`taken
      ensures stages == old(stages) + Times(AtLoop, Extra(maxWorkers, old(|stages|), |tracked|))
      ensures taken == old(taken) + Times(0, Extra(maxWorkers, old(|stages|), |tracked|))
      ensures var n := old(|stages|);
              |stages| == if n < maxWorkers && n <= |tracked|
                          then (if 2 * n <= maxWorkers then 2 * n else maxWorkers) else n
    {
      if |stages| < maxWorkers && |tracked| >= |stages| {
        AdjustThreadCount();
      } else {
        assert stages + Times(AtLoop, 0) == stages && taken + Times(0, 0) == taken;
      }
    }

    /** `submit`; the result is false where the source raises because the pool is shut down. */
    method SubmitWork() returns (ok: bool, future: nat)
      requires Valid()
      modifies this`stages, this`taken, this`queue, this`fates, this`tracked, this`stats
      ensures Valid() && (ok <==> closer.Open?)
      ensures ok ==> View() == Apply(maxWorkers, old(View()), Submit) && future == old(|fates|) && future in tracked
      ensures !ok ==> View() == old(View())
      ensures ok ==> queue == old(queue) + [Work(future)] && tracked == old(tracked) + {future}
      ensures ok ==> var n := old(|stages|);
                |stages| == if n < maxWorkers && n <= old(|tracked|)
                            then (if 2 * n <= maxWorkers then 2 * n else maxWorkers) else n
    {
      hide Inv, Shaped, Times, Extra, Apply;
      ok, future := closer.Open?, |fates|;
      if !ok {
        return;
      }
      Proofs.SubmitStep(maxWorkers, View());
      GrowIfNeeded();
      fates := fates + [Pending];
      tracked := tracked + {future};
      queue := queue + [Work(future)];
      stats := stats.(submitted := stats.submitted + 1);
    }

    /** `while futures`: the loop ends exactly if no future is left. */
    method MoreFutures() returns (more: bool)
      requires Valid() && closer.AtWhile?
      modifies this`closer
      ensures Valid() && View() == Apply(maxWorkers, old(View()), While)
      ensures more <==> tracked != {}
      ensures closer == if more then Popping else Finished
    {
      hide Inv, Shaped;
      Proofs.CloserMoves(maxWorkers, View(), While);
      more := tracked != {};
      closer := if more then Popping else Finished;
    }

    /** `futures.pop()`: one of the futures, or KeyError (None) if the last was discarded meanwhile. */
    method PopFuture() returns (popped: Option<nat>)
      requires Valid() && closer.Popping?
      modifies this`closer, this`tracked
      ensures Valid() && (popped.None? <==> old(tracked) == {})
      ensures popped.None? ==> View() == Apply(maxWorkers, old(View()), PopEmpty) && closer == Aborted(KeyError)
      ensures popped.Some? ==>
                && popped.value in old(tracked) && popped.value < |fates|
                && View() == Apply(maxWorkers, old(View()), Pop(popped.value))
                && tracked == old(tracked) - {popped.value} && closer == Popped(popped.value)
    {
      hide Inv, Shaped;
      Proofs.TrackedInRange(maxWorkers, View());
      if tracked == {} {
        Proofs.CloserMoves(maxWorkers, View(), PopEmpty);
        closer := Aborted(KeyError);
        return None;
      }
      var f :| f in tracked;
      Proofs.CloserMoves(maxWorkers, View(), Pop(f));
      tracked := tracked - {f};
      closer := Popped(f);
      popped := Some(f);
    }

    /** `if future.done(): continue`. */
    method TestFuture() returns (pending: bool)
      requires Valid() && closer.Popped?
      modifies this`closer
      ensures Valid() && View() == Apply(maxWorkers, old(View()), TestPopped)
      ensures old(closer).future < |fates| && (pending <==> fates[old(closer).future].Pending?)
      ensures closer == if pending then Writing(old(closer).future) else AtWhile
    {
      hide Inv, Shaped;
      Proofs.TrackedInRange(maxWorkers, View());
      Proofs.CloserMoves(maxWorkers, View(), TestPopped);
      pending := fates[closer.future].Pending?;
      closer := if pending then Writing(closer.future) else AtWhile;
    }

    /** `future.set_exception(...)`: it raises, and leaves the loop, exactly if the future is done by now or
        the event loop is closed; a pending future is rejected in any case. */
    method RejectFuture() returns (ok: bool)
      requires Valid() && closer.Writing?
      modifies this`closer, this`fates
      ensures Valid() && View() == Apply(maxWorkers, old(View()), Reject)
      ensures old(closer).future < |old(fates)|
      ensures ok <==> !loopClosed && old(fates)[old(closer).future].Pending?
      ensures fates == Write(old(fates), old(closer).future, PoolClosed)
      ensures ok ==> closer.AtWhile?
      ensures !ok ==> closer == Aborted(if old(fates)[old(closer).future].Pending? then ClosedLoop else InvalidState)
    {
      hide Inv, Shaped;
      Proofs.TrackedInRange(maxWorkers, View());
      Proofs.CloserMoves(maxWorkers, View(), Reject);
      var f := closer.future;
      ok := fates[f].Pending? && !loopClosed;
      closer := if ok then AtWhile else if fates[f].Pending? then Aborted(ClosedLoop) else Aborted(InvalidState);
      if fates[f].Pending? {
        fates := fates[f := Resolved(PoolClosed)];
      }
    }

    /** The loop of `shutdown` over the futures, when nobody else moves: on an open event loop every
        pending future is rejected; on a closed one it stops after rejecting one. */
    method RejectFutures() returns (ok: bool)
      requires Valid() && closer.AtWhile?
      modifies this`closer, this`fates, this`tracked
      ensures Valid() && |fates| == old(|fates|)
      ensures ok <==> !loopClosed || forall f :: 0 <= f < |fates| ==> old(fates[f]).Resolved?
      ensures ok ==> closer.Finished? && forall f :: 0 <= f < |fates| ==>
                fates[f] == if old(fates[f]).Pending? then Resolved(PoolClosed) else old(fates[f])
      ensures !ok ==> closer == Aborted(ClosedLoop) && exists f: nat :: OnlyRejected(old(fates), fates, f)
    {
      hide Inv, Apply;
      while true
        invariant Valid() && closer.AtWhile? && |fates| == old(|fates|)
        invariant forall f :: 0 <= f < |fates| ==>
                    fates[f] == old(fates[f]) || (old(fates[f]).Pending? && fates[f] == Resolved(PoolClosed))
        invariant loopClosed ==> fates == old(fates)
        decreases |tracked|
      {
        var more := MoreFutures();
        if !more {
          Proofs.FinishedResolves(maxWorkers, View());
          return true;
        }
        var popped := PopFuture();
        var pending := TestFuture();
        if pending {
          ok := RejectFuture();
          if !ok {
            assert OnlyRejected(old(fates), fates, popped.value);
            return;
          }
        }
      }
    }
  }

  /** One pending future was rejected, and no other was touched. */
  ghost predicate OnlyRejected(before: seq<Fate>, after: seq<Fate>, f: nat) {
    f < |before| && before[f].Pending? && after == before[f := Resolved(PoolClosed)]
  }
}
