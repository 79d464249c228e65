/**
 * The actor runtime in its own form: one object, whose schedulers and workers change its maps, queues,
 * channels and counters in place. Each method is one atomic stretch and does what ActorMachine says.
 */
module ActorRuntime {
  import opened Prelude
  import opened ActorMachine
  import opened ActorInvariants
  import opened ActorOrder
  import opened ActorOutcomes
  import opened ActorTheorems

  class Runtime {
    const cfg: Config
    var shards: seq<Shard>
    var ready: seq<Item>
    var workers: seq<Worker>
    var live: bool
    var activeActors: int
    var queued: int
    var nextActor: nat
    var outcomes: map<Task, Outcome>
    ghost var hist: History

    ghost function State(): State
      reads this
    {
      ActorMachine.State(cfg, shards, ready, workers, live, activeActors, queued, nextActor, outcomes, hist)
    }

    constructor (cfg: Config, shardCount: nat)
      requires WellConfigured(cfg, shardCount)
      ensures State() == Start(cfg, shardCount)
    {
      this.cfg := cfg;
      shards := seq(shardCount, i => Shard([], [], map[], Idle));
      workers := seq(cfg.workers, k => Free);
      ready, live, activeActors, queued, nextActor, outcomes := [], true, 0, 0, 0, map[];
      hist := History({}, map[], map[]);
    }

    /** Writes an answer into the one-slot result channel unless one is already there. */
    method Answer(t: Task, o: Outcome)
      modifies this`outcomes
      ensures outcomes == Deliver(old(outcomes), t, o)
    {
      if t !in outcomes {
        outcomes := outcomes[t := o];
      }
    }

    method Submit(t: Task) returns (accepted: bool)
      requires |shards| > 0 && t !in hist.taken && t !in shards[Home(State(), t.farmId)].inbox
      modifies this
      ensures State() == AfterSubmit(old(State()), t)
      ensures accepted == CanSubmit(old(State()), t)
    {
      var i := cfg.hash(t.farmId) % |shards|;
      accepted := |shards[i].inbox| < cfg.ingressCap;
      if accepted {
        shards := shards[i := shards[i].(inbox := shards[i].inbox + [t])];
      }
    }

    /** Takes the oldest task: refuses it, queues it behind the running one, or prepares to dispatch it. */
    method Accept(i: nat, now: Time)
      requires CanAccept(State(), i)
      modifies this
      ensures State() == AfterAccept(old(State()), i, now)
    {
      var t := shards[i].inbox[0];
      shards := shards[i := shards[i].(inbox := shards[i].inbox[1..])];
      hist := hist.(taken := hist.taken + {t});
      if t.farmId !in shards[i].actors {
        if activeActors >= cfg.maxActors {
          Answer(t, Backpressure);
          return;
        }
        activeActors := activeActors + 1;
        shards := shards[i := shards[i].(actors := shards[i].actors[t.farmId := NewActor(nextActor, now)],
                                         scheduler := Dispatching(t, true))];
        nextActor := nextActor + 1;
        return;
      }
      var st := shards[i].actors[t.farmId];
      if st.running {
        if |st.queue| >= cfg.farmQueueCap {
          Answer(t, Backpressure);
          return;
        }
        shards := shards[i := shards[i].(actors := shards[i].actors[t.farmId := st.(queue := st.queue + [t])])];
        queued := queued + 1;
        hist := Admit(hist, t);
        return;
      }
      shards := shards[i := shards[i].(scheduler := Dispatching(t, false))];
    }

    /** The non-blocking send; when the ready channel is full, an actor made for this task goes again. */
    method TryDispatch(i: nat, now: Time)
      requires Dispatches(State(), i)
      modifies this
      ensures State() == AfterTryDispatch(old(State()), i, now)
    {
      var t, created := shards[i].scheduler.task, shards[i].scheduler.created;
      var st := shards[i].actors[t.farmId];
      if |ready| < cfg.readyCap {
        ready := ready + [Item(i, st.id, t, st.snapshot)];
        hist := Admit(hist, t);
        st := st.(running := true, inflight := Some(t), lastUsed := now);
        shards := shards[i := shards[i].(actors := shards[i].actors[t.farmId := st], scheduler := Idle)];
        return;
      }
      Answer(t, Backpressure);
      shards := shards[i := shards[i].(scheduler := Idle)];
      if created {
        shards := shards[i := shards[i].(actors := shards[i].actors - {t.farmId})];
        activeActors := activeActors - 1;
      }
    }

    method Complete(i: nat, now: Time)
      requires CanComplete(State(), i)
      modifies this
      ensures State() == AfterComplete(old(State()), i, now)
    {
      var c := shards[i].completed[0];
      var f := c.item.task.farmId;
      shards := shards[i := shards[i].(completed := shards[i].completed[1..])];
      Answer(c.item.task, Executed(c.result));
      if f !in shards[i].actors || shards[i].actors[f].id != c.item.actorId {
        return;
      }
      var st := shards[i].actors[f].(running := false, inflight := None, snapshot := c.left, lastUsed := now);
      shards := shards[i := shards[i].(actors := shards[i].actors[f := st])];
      if |st.queue| == 0 {
        return;
      }
      var next := st.queue[0];
      var waiting := st.(queue := st.queue[1..]);
      assert shards[i].actors[f := waiting] == old(shards)[i].actors[f := waiting];
      shards := shards[i := shards[i].(actors := shards[i].actors[f := waiting], scheduler := Holding(next))];
      queued := queued - 1;
      assert shards == old(shards)[i := shards[i]];
    }

    /** The blocking send once there is room. */
    method HandOff(i: nat)
      requires Hands(State(), i) && |ready| < cfg.readyCap
      modifies this
      ensures State() == AfterHandOff(old(State()), i)
    {
      var t := shards[i].scheduler.task;
      var st := shards[i].actors[t.farmId];
      ready := ready + [Item(i, st.id, t, st.snapshot)];
      st := st.(running := true, inflight := Some(t));
      shards := shards[i := shards[i].(actors := shards[i].actors[t.farmId := st], scheduler := Idle)];
    }

    /** The other branch of the blocking send: the context is done. */
    method DropHandOff(i: nat)
      requires Hands(State(), i) && !live
      modifies this
      ensures State() == AfterDropHandOff(old(State()), i)
    {
      Answer(shards[i].scheduler.task, Cancelled);
      shards := shards[i := shards[i].(scheduler := Idle)];
    }

    /** Deletes the actors idle for long enough, one map entry at a time. */
    method EvictIdle(i: nat, now: Time)
      requires i < |shards| && shards[i].scheduler.Idle?
      modifies this
      ensures State() == AfterEvictIdle(old(State()), i, now)
      ensures forall f :: f in old(shards[i].actors) ==>
        var a := old(shards[i].actors)[f];
        (f in shards[i].actors <==> a.running || a.queue != [] || now - cfg.idleTtl < a.lastUsed)
      ensures forall f :: f in shards[i].actors ==> f in old(shards[i].actors) && shards[i].actors[f] == old(shards[i].actors)[f]
      ensures activeActors == old(activeActors) - (|old(shards[i].actors)| - |shards[i].actors|)
    {
      ghost var s := State();
      ghost var all := shards[i].actors;
      var kept := shards[i].actors;
      var rest := shards[i].actors.Keys;
      while rest != {}
        invariant rest <= all.Keys && kept.Keys <= all.Keys
        invariant forall f :: f in all ==> (f in kept <==> f in rest || !Evictable(all[f], now, cfg.idleTtl))
        invariant forall f :: f in kept ==> kept[f] == all[f]
        invariant activeActors == s.activeActors - (|all| - |kept|)
        invariant State() == s.(activeActors := activeActors)
        decreases rest
      {
        var f := Pick(rest);
        rest := rest - {f};
        if Evictable(kept[f], now, cfg.idleTtl) {
          OneActorLess(kept, f);
          kept := kept - {f};
          activeActors := activeActors - 1;
        }
      }
      KeptIs(all, kept, now);
      shards := shards[i := shards[i].(actors := kept)];
    }

    lemma KeptIs(all: map<int, Actor>, kept: map<int, Actor>, now: Time)
      requires forall f :: f in kept ==> f in all && kept[f] == all[f]
      requires forall f :: f in all ==> (f in kept <==> !Evictable(all[f], now, cfg.idleTtl))
      ensures kept == map f | f in all && !Evictable(all[f], now, cfg.idleTtl) :: all[f]
    {
      var wanted := map f | f in all && !Evictable(all[f], now, cfg.idleTtl) :: all[f];
      forall f ensures f in kept <==> f in wanted {
        if f in all {}
      }
      forall f | f in kept ensures kept[f] == wanted[f] {}
    }

    /** Shutdown of one scheduler: everything its actors owe and its inbox holds is answered. */
    method FailAll(i: nat)
      requires i < |shards| && shards[i].scheduler.Idle? && !live
      modifies this
      ensures State() == AfterFailAll(old(State()), i)
    {
      AnswerAll(i);
      shards := shards[i := shards[i].(scheduler := Exited)];
      assert shards == old(shards)[i := old(shards)[i].(inbox := [], scheduler := Exited)];
    }

    method AnswerAll(i: nat)
      requires i < |shards|
      modifies this`outcomes, this`queued, this`activeActors, this`shards, this`hist
      ensures var shard := old(shards)[i];
        && shards == old(shards)[i := shard.(inbox := [])]
        && outcomes == CancelAll(old(outcomes), Owed(shard.actors) + Elements(shard.inbox))
        && hist == old(hist).(taken := old(hist).taken + Elements(shard.inbox))
        && queued == old(queued) - MapSum(shard.actors, QueueLength())
        && activeActors == old(activeActors) - |shard.actors|
    {
      CancelMore(outcomes, Owed(shards[i].actors), Elements(shards[i].inbox));
      CancelActors(shards[i].actors);
      DrainInbox(i);
    }

    /** Every actor's tasks are answered and both counters given back; the map itself is left alone. */
    method CancelActors(actors: map<int, Actor>)
      modifies this`outcomes, this`queued, this`activeActors
      ensures outcomes == CancelAll(old(outcomes), Owed(actors))
      ensures queued == old(queued) - MapSum(actors, QueueLength())
      ensures activeActors == old(activeActors) - |actors|
    {
      var rest := actors;
      assert Owed(actors - rest.Keys) == {};
      while rest != map[]
        invariant forall f :: f in rest ==> f in actors && rest[f] == actors[f]
        invariant outcomes == CancelAll(old(outcomes), Owed(actors - rest.Keys))
        invariant queued == old(queued) - MapSum(actors, QueueLength()) + MapSum(rest, QueueLength())
        invariant activeActors == old(activeActors) - |actors| + |rest|
        decreases |rest|
      {
        var f := Pick(rest.Keys);
        OneActorDone(old(outcomes), actors, rest, f);
        CancelActor(rest[f]);
        rest := rest - {f};
        activeActors := activeActors - 1;
      }
      assert actors - rest.Keys == actors;
    }

    lemma OneActorDone(base: map<Task, Outcome>, actors: map<int, Actor>, rest: map<int, Actor>, f: int)
      requires f in rest && forall g :: g in rest ==> g in actors && rest[g] == actors[g]
      ensures CancelAll(CancelAll(base, Owed(actors - rest.Keys)), OwedBy(rest[f])) == CancelAll(base, Owed(actors - (rest - {f}).Keys))
      ensures MapSum(rest - {f}, QueueLength()) == MapSum(rest, QueueLength()) - |rest[f].queue|
      ensures |rest - {f}| == |rest| - 1
    {
      CancelMore(base, Owed(actors - rest.Keys), OwedBy(rest[f]));
      MapSumSplit(rest, QueueLength(), f);
      OneActorLess(rest, f);
      OwedGrows(actors, rest, f);
    }

    lemma OwedGrows(actors: map<int, Actor>, rest: map<int, Actor>, f: int)
      requires f in rest && forall g :: g in rest ==> g in actors && rest[g] == actors[g]
      ensures Owed(actors - (rest - {f}).Keys) == Owed(actors - rest.Keys) + OwedBy(actors[f])
    {
      var was, after := actors - rest.Keys, actors - (rest - {f}).Keys;
      forall t | t in Owed(after) ensures t in Owed(was) + OwedBy(actors[f]) {
        var g :| g in after && t in OwedBy(after[g]);
        assert g == f || (g in was && was[g] == after[g]);
      }
      forall t | t in OwedBy(actors[f]) ensures t in Owed(after) {
        assert f in after && t in OwedBy(after[f]);
      }
      forall t | t in Owed(was) ensures t in Owed(after) {
        var g :| g in was && t in OwedBy(was[g]);
        assert g in after && after[g] == was[g];
      }
    }

    /** Answers the task in flight and the queued ones of one actor. */
    method CancelActor(st: Actor)
      modifies this`outcomes, this`queued
      ensures outcomes == CancelAll(old(outcomes), OwedBy(st)) && queued == old(queued) - |st.queue|
    {
      ghost var first := if st.inflight.Some? then {st.inflight.value} else {};
      if st.inflight.Some? {
        Answer(st.inflight.value, Cancelled);
      }
      assert outcomes == CancelAll(old(outcomes), first);
      CancelMore(old(outcomes), first, Elements(st.queue));
      CancelQueue(st.queue);
    }

    method CancelQueue(tasks: seq<Task>)
      modifies this`outcomes, this`queued
      ensures outcomes == CancelAll(old(outcomes), Elements(tasks)) && queued == old(queued) - |tasks|
    {
      var k := 0;
      while k < |tasks|
        invariant 0 <= k <= |tasks| && queued == old(queued) - k
        invariant outcomes == CancelAll(old(outcomes), Elements(tasks[..k]))
      {
        CancelOneMore(old(outcomes), Elements(tasks[..k]), tasks[k]);
        ElementsPush(tasks, k);
        Answer(tasks[k], Cancelled);
        queued := queued - 1;
        k := k + 1;
      }
      assert tasks[..k] == tasks;
    }

    lemma CancelOneMore(base: map<Task, Outcome>, tasks: set<Task>, t: Task)
      ensures Deliver(CancelAll(base, tasks), t, Cancelled) == CancelAll(base, tasks + {t})
    {
    }

    lemma CancelMore(base: map<Task, Outcome>, tasks: set<Task>, more: set<Task>)
      ensures CancelAll(CancelAll(base, tasks), more) == CancelAll(base, tasks + more)
    {
    }

    lemma ElementsPush(tasks: seq<Task>, k: nat)
      requires k < |tasks|
      ensures Elements(tasks[..k + 1]) == Elements(tasks[..k]) + {tasks[k]}
    {
      assert tasks[..k + 1] == tasks[..k] + [tasks[k]];
    }

    method DrainInbox(i: nat)
      requires i < |shards|
      modifies this`outcomes, this`shards, this`hist
      ensures var inbox := old(shards)[i].inbox;
        && shards == old(shards)[i := old(shards)[i].(inbox := [])]
        && outcomes == CancelAll(old(outcomes), Elements(inbox))
        && hist == old(hist).(taken := old(hist).taken + Elements(inbox))
    {
      var k := 0;
      ghost var inbox := shards[i].inbox;
      while shards[i].inbox != []
        invariant 0 <= k <= |inbox| && |shards| == |old(shards)|
        invariant shards == old(shards)[i := old(shards)[i].(inbox := inbox[k..])]
        invariant outcomes == CancelAll(old(outcomes), Elements(inbox[..k]))
        invariant hist == old(hist).(taken := old(hist).taken + Elements(inbox[..k]))
        decreases |inbox| - k
      {
        var t := shards[i].inbox[0];
        CancelOneMore(old(outcomes), Elements(inbox[..k]), t);
        Answer(t, Cancelled);
        shards := shards[i := shards[i].(inbox := shards[i].inbox[1..])];
        hist := hist.(taken := hist.taken + {t});
        ElementsPush(inbox, k);
        k := k + 1;
      }
      assert inbox[..k] == inbox;
    }

    /** A free worker receives the oldest item and starts executing it. */
    method Take(k: nat)
      requires CanTake(State(), k)
      modifies this
      ensures State() == AfterTake(old(State()), k)
    {
      var x := ready[0];
      ready := ready[1..];
      workers := workers[k := Executing(x)];
      hist := hist.(executed := hist.executed[x.task.farmId :=
        Lookup(hist.executed, x.task.farmId) + [Execution(x.task, x.actorId, x.snapshot, None)]]);
    }

    /** The execution ends with any snapshot and any result. */
    method Finish(k: nat, left: Option<Hot>, result: int)
      requires CanFinish(State(), k)
      modifies this
      ensures State() == AfterFinish(old(State()), k, left, result)
    {
      hist := AfterFinish(State(), k, left, result).hist;
      workers := workers[k := Reporting(Completion(workers[k].item, left, result))];
    }

    method Report(k: nat)
      requires CanReport(State(), k)
      modifies this
      ensures State() == AfterReport(old(State()), k)
    {
      var c := workers[k].completion;
      shards := shards[c.item.shard := shards[c.item.shard].(completed := shards[c.item.shard].completed + [c])];
      workers := workers[k := Free];
    }

    method Abandon(k: nat)
      requires !live && k < |workers| && workers[k].Reporting?
      modifies this
      ensures State() == AfterAbandon(old(State()), k)
    {
      Answer(workers[k].completion.item.task, Cancelled);
      workers := workers[k := Free];
    }

    method Stop()
      modifies this`live
      ensures State() == old(State()).(live := false)
    {
      live := false;
    }

    predicate Waits(i: nat)
      reads this
    {
      i < |shards| && shards[i].scheduler.Holding? && shards[i].scheduler.task.farmId in shards[i].actors
    }

    predicate HasRoom(k: nat)
      reads this
    {
      && k < |workers| && workers[k].Reporting? && workers[k].completion.item.shard < |shards|
      && |shards[workers[k].completion.item.shard].completed| < cfg.workers
    }

    /** One step of a schedule; a step that is not enabled does nothing. */
    method Perform(step: Step)
      requires |shards| > 0
      requires step.Submit? ==> step.task !in hist.taken && step.task !in shards[Home(State(), step.task.farmId)].inbox
      modifies this
      ensures State() == Next(old(State()), step)
    {
      match step
      case Submit(t) =>
        var _ := Submit(t);
      case Accept(i, now) => if i < |shards| && shards[i].scheduler.Idle? && shards[i].inbox != [] { Accept(i, now); }
      case TryDispatch(i, now) => if i < |shards| && shards[i].scheduler.Dispatching? && shards[i].scheduler.task.farmId in shards[i].actors { TryDispatch(i, now); }
      case Complete(i, now) => if i < |shards| && shards[i].scheduler.Idle? && shards[i].completed != [] { Complete(i, now); }
      case HandOff(i) => if Waits(i) && |ready| < cfg.readyCap { HandOff(i); }
      case DropHandOff(i) => if Waits(i) && !live { DropHandOff(i); }
      case EvictIdle(i, now) => if i < |shards| && shards[i].scheduler.Idle? { EvictIdle(i, now); }
      case FailAll(i) => if i < |shards| && shards[i].scheduler.Idle? && !live { FailAll(i); }
      case Take(k) => if k < |workers| && workers[k].Free? && ready != [] { Take(k); }
      case Finish(k, left, result) => if k < |workers| && workers[k].Executing? { Finish(k, left, result); }
      case Report(k) => if HasRoom(k) { Report(k); }
      case Abandon(k) => if !live && k < |workers| && workers[k].Reporting? { Abandon(k); }
      case StopWorker(k) => if !live && k < |workers| && workers[k].Free? { workers := workers[k := Stopped]; }
      case Cancel => Stop();
    }
  }
}
