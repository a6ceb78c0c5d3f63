/**
 `PoolBase` of `aiomisc/pool.py`.  The object has a semaphore, a length, two queues, a set and a
 dictionary; which coroutine has which instance is written nowhere.  The ghost fields keep what the
 coroutines know, and every method, one atomic section of `__acquire`, `__release`,
 `__create_new_instance` or `__recycler`, is proved to be a step of `PoolProtocol` on both together.
 From the invariant of the protocol its caller learns who else can have the instance.
 */
module Pool {
  import opened Basics
  import opened PoolProtocol
  import Proofs = PoolProofs

  class PoolBase {
    const cfg: Config
    var semaphore: nat
    var len: int
    var instances: seq<nat>
    var used: set<nat>
    var recycleBin: seq<nat>
    var recycleTimes: map<nat, real>
    ghost var now: real
    ghost var clients: seq<Client>
    ghost var born: seq<real>
    ghost var destroyed: set<nat>
    ghost var lost: nat
    ghost var raised: nat
    ghost var dropped: nat

    ghost function View(): State
      reads this
    {
      State(now, semaphore, len, clients, instances, used, recycleBin, destroyed, recycleTimes, born, lost, raised,
            dropped)
    }

    ghost predicate Valid()
      reads this
    {
      Inv(cfg, View())
    }

    constructor (cfg: Config)
      ensures Valid() && View() == Init(cfg) && this.cfg == cfg
    {
      this.cfg := cfg;
      now, semaphore, len, clients, instances, used := 0.0, cfg.maxSize, 0, [], [], {};
      recycleBin, destroyed, recycleTimes, born, lost, raised, dropped := [], {}, map[], [], 0, 0, 0;
    }

    /** `__acquire` up to its first suspension: an instance is created exactly if a permit is free. */
    method EnterAcquire() returns (creating: bool)
      modifies this`semaphore
      ensures creating <==> 0 < old(semaphore)
      ensures semaphore == old(semaphore) - if creating then 1 else 0
      ensures (if creating then Creating else Waiting, semaphore) == Entry(old(View()))
    {
      creating := semaphore != 0;
      if creating {
        semaphore := semaphore - 1;
      }
    }

    /** `acquire`: a new client enters `__acquire`; there are never more creations than permits. */
    method BeginAcquire() returns (creating: bool, ghost c: nat)
      requires Valid()
      modifies this`semaphore, this`clients
      ensures Valid() && View() == Apply(cfg, old(View()), Acquire)
      ensures c == old(|clients|) && creating == (0 < old(semaphore))
      ensures creating ==> len + lost + CreatingCount(clients) <= cfg.maxSize
    {
      hide Inv, CreatingCount;
      Proofs.StepOk(cfg, View(), Acquire);
      Proofs.PermitsAreBounded(cfg, Apply(cfg, View(), Acquire));
      c := |clients|;
      creating := EnterAcquire();
      clients := clients + [if creating then Creating else Waiting];
    }

    /** `_create_instance` came back with a new instance: it is idle, and nobody has it. */
    method InstanceCreated(instance: nat, deadline: real, time: real, ghost c: nat)
      requires Valid() && time == now && instance == |born| && Enabled(cfg, View(), Created(c, deadline))
      modifies this`len, this`born, this`recycleTimes, this`instances, this`clients
      ensures Valid() && View() == Apply(cfg, old(View()), Created(c, deadline))
      ensures instances == old(instances) + [instance] && instance !in old(instances) && instance !in used
      ensures Alone(clients, instance, |clients|)
    {
      hide Inv, Alone;
      Proofs.StepOk(cfg, View(), Created(c, deadline));
      Proofs.NewIsNobodys(cfg, View(), c);
      born := born + [now];
      len := len + 1;
      if cfg.recycle.Some? {
        recycleTimes := recycleTimes[instance := time + deadline];
      }
      instances := instances + [instance];
      clients := clients[c := Waiting];
    }

    /** `await self._instances.get()` came back; the check begins, and nobody else has the instance. */
    method TakeIdle(ghost c: nat) returns (instance: nat)
      requires Valid() && Enabled(cfg, View(), Got(c))
      modifies this`instances, this`clients
      ensures Valid() && View() == Apply(cfg, old(View()), Got(c))
      ensures old(instances) == [instance] + instances && instance !in instances && instance !in used
      ensures Alone(clients, instance, c)
    {
      hide Inv, Alone;
      Proofs.StepOk(cfg, View(), Got(c));
      Proofs.HolderIsAlone(cfg, Apply(cfg, View(), Got(c)), c);
      instance := instances[0];
      instances := instances[1..];
      clients := clients[c := Checking(instance)];
    }

    /** `__recycle_instance`: the instance is in the bin and in no other table, its permit is free. */
    method RecycleInstance(instance: nat)
      modifies this`len, this`semaphore, this`recycleTimes, this`used, this`recycleBin
      ensures View() == Recycled(old(View()), instance)
      ensures Forgotten(old(View()), View(), instance)
    {
      len := len - 1;
      semaphore := semaphore + 1;
      if instance in recycleTimes {
        recycleTimes := recycleTimes - {instance};
      }
      if instance in used {
        used := used - {instance};
      }
      recycleBin := recycleBin + [instance];
      assert recycleTimes == old(recycleTimes) - {instance} && used == old(used) - {instance};
    }

    /** The check came back with an answer.  A good instance is in use by this client and nobody else; a
        bad one is recycled, nobody has it, and the client starts over. */
    method CheckAnswered(instance: nat, result: bool, ghost c: nat) returns (creating: bool)
      requires Valid() && c < |clients| && clients[c] == Checking(instance)
      modifies this`len, this`semaphore, this`recycleTimes, this`used, this`recycleBin, this`clients
      ensures Valid() && View() == Apply(cfg, old(View()), if result then CheckPassed(c) else CheckRefused(c))
      ensures instance !in instances && (instance in used <==> result)
      ensures Alone(clients, instance, if result then c else |clients|)
      ensures !result ==> instance in recycleBin && creating
    {
      hide Inv, Forgotten;
      ghost var e := if result then CheckPassed(c) else CheckRefused(c);
      Proofs.StepOk(cfg, View(), e);
      Proofs.HolderIsAlone(cfg, View(), c);
      creating := false;
      if !result {
        RecycleInstance(instance);
        creating := EnterAcquire();
        clients := clients[c := if creating then Creating else Waiting];
        return;
      }
      used := used + {instance};
      clients := clients[c := Using(instance)];
    }

    /** The check raised: the instance is recycled, and control falls through to handing it out.  The
        client now uses an instance that is waiting to be destroyed, and its permit is free. */
    method CheckFailed(instance: nat, ghost c: nat)
      requires Valid() && c < |clients| && clients[c] == Checking(instance)
      modifies this`len, this`semaphore, this`recycleTimes, this`used, this`recycleBin, this`clients, this`raised
      ensures Valid() && View() == Apply(cfg, old(View()), CheckRaised(c))
      ensures instance in used && instance in recycleBin && !Healthy(View())
      ensures semaphore == old(semaphore) + 1 && Alone(clients, instance, c)
    {
      hide Inv, Alone, Healthy, Forgotten;
      Proofs.StepOk(cfg, View(), CheckRaised(c));
      Proofs.RaisedFacts(cfg, View(), c);
      RecycleInstance(instance);
      used := used + {instance};
      clients := clients[c := Using(instance)];
      raised := raised + 1;
    }

    /** `self._recycle_times[instance]` of a defaultdict: reading enters the current time if it is missing. */
    method DeadlineOf(instance: nat, time: real) returns (deadline: real)
      modifies this`recycleTimes
      ensures instance in recycleTimes && deadline == recycleTimes[instance]
      ensures recycleTimes == if instance in old(recycleTimes) then old(recycleTimes)
                              else old(recycleTimes)[instance := time]
    {
      if instance !in recycleTimes {
        recycleTimes := recycleTimes[instance := time];
      }
      deadline := recycleTimes[instance];
    }

    /** `__release` of an instance in use, with the clock read at `time` and again at `later`: the step of
        the one client that uses it, after which nobody has it. */
    method ReleaseInstance(instance: nat, time: real, later: real) returns (ghost c: nat)
      requires Valid() && instance in used && time == now <= later
      modifies this`now, this`len, this`semaphore, this`recycleTimes, this`used, this`recycleBin, this`instances,
               this`clients
      ensures c < |old(clients)| && old(clients)[c] == Using(instance) && Alone(old(clients), instance, c)
      ensures Valid() && View() == Apply(cfg, old(View()), Release(c, later))
      ensures instance !in used && Alone(clients, instance, |clients|)
      ensures instances == old(instances) + [instance] || recycleBin == old(recycleBin) + [instance]
    {
      hide Inv, Alone, Forgotten, Apply, Recycled;
      c := Proofs.HolderOf(cfg, View(), instance);
      Proofs.StepOk(cfg, View(), Release(c, later));
      Proofs.ReleaseFacts(cfg, View(), c, later);
      used := used - {instance};
      clients := clients[c := Over];
      now := later;
      if cfg.recycle.Some? {
        var deadline := DeadlineOf(instance, time);
        if deadline < later {
          RecycleInstance(instance);
          assert used == old(used) - {instance};
          return;
        }
      }
      instances := instances + [instance];
    }

    /** One turn of `__recycler`. */
    method RecyclerTurn() returns (instance: nat)
      requires Valid() && recycleBin != []
      modifies this`recycleBin, this`destroyed
      ensures Valid() && View() == Apply(cfg, old(View()), Destroy)
      ensures old(recycleBin) == [instance] + recycleBin && Retired(View(), instance)
    {
      hide Inv;
      Proofs.StepOk(cfg, View(), Destroy);
      instance := recycleBin[0];
      recycleBin := recycleBin[1..];
      destroyed := destroyed + {instance};
    }
  }
}
