/** Counters, acceptance order and the chain of executions, step by step. */
module ActorOrder {
  import opened Prelude
  import opened ActorMachine
  import opened ActorInvariants

  // ---- Counters ----

  ghost function ActorCount(): Shard -> int { (shard: Shard) => if shard.scheduler.Exited? then 0 else |shard.actors| }

  ghost function QueueCount(): Shard -> int {
    (shard: Shard) => if shard.scheduler.Exited? then 0 else MapSum(shard.actors, QueueLength())
  }

  /** Both atomic counters are exact over the schedulers that still run, and the actor cap holds. */
  ghost predicate Counted(s: State) {
    && s.activeActors == SeqSum(s.shards, ActorCount())
    && s.queued == SeqSum(s.shards, QueueCount())
    && s.activeActors <= s.cfg.maxActors
  }

  lemma ShardKeepsCounted(s: State, v: State, i: nat)
    requires Counted(s) && OnlyShard(s, v, i)
    requires v.activeActors - s.activeActors == ActorCount()(v.shards[i]) - ActorCount()(s.shards[i])
    requires v.queued - s.queued == QueueCount()(v.shards[i]) - QueueCount()(s.shards[i])
    requires v.activeActors <= s.cfg.maxActors
    ensures Counted(v)
  {
    SeqSumUpdate(s.shards, ActorCount(), i, v.shards[i]);
    SeqSumUpdate(s.shards, QueueCount(), i, v.shards[i]);
  }

  lemma AcceptKeepsCounted(s: State, i: nat, now: Time)
    requires Shape(s) && Counted(s)
    ensures Counted(AfterAccept(s, i, now))
  {
    if CanAccept(s, i) {
      AcceptAdmits(s, i, now);
      AdmittingKeepsCounted(s, AfterAccept(s, i, now), i);
    }
  }

  lemma AdmittingKeepsCounted(s: State, v: State, i: nat)
    requires Counted(s) && Admits(s, v, i)
    ensures Counted(v)
  {
    var f := s.shards[i].inbox[0].farmId;
    if !ActorsLeft(s, v, i, s.shards[i].inbox[0]) {
      MapSumUpdate(s.shards[i].actors, QueueLength(), f, v.shards[i].actors[f]);
    }
    ShardKeepsCounted(s, v, i);
  }

  lemma TryDispatchKeepsCounted(s: State, i: nat, now: Time)
    requires Shape(s) && Counted(s)
    ensures Counted(AfterTryDispatch(s, i, now))
  {
    if Dispatches(s, i) {
      assert ShardShape(s, i);
      var v := AfterTryDispatch(s, i, now);
      var f := s.shards[i].scheduler.task.farmId;
      if |s.ready| < s.cfg.readyCap {
        MapSumUpdate(s.shards[i].actors, QueueLength(), f, v.shards[i].actors[f]);
      } else if s.shards[i].scheduler.created {
        MapSumSplit(s.shards[i].actors, QueueLength(), f);
        OneActorLess(s.shards[i].actors, f);
      }
      ShardKeepsCounted(s, v, i);
    }
  }

  lemma OneActorLess(actors: map<int, Actor>, f: int)
    requires f in actors
    ensures |actors - {f}| == |actors| - 1
  {
    assert actors == (actors - {f})[f := actors[f]];
  }

  lemma CompleteKeepsCounted(s: State, i: nat, now: Time)
    requires Core(s) && Counted(s)
    ensures Counted(AfterComplete(s, i, now))
  {
    if CanComplete(s, i) {
      CompletionIsTheOnlyItem(s, i);
      var v := AfterComplete(s, i, now);
      var f := s.shards[i].completed[0].item.task.farmId;
      MapSumUpdate(s.shards[i].actors, QueueLength(), f, v.shards[i].actors[f]);
      ShardKeepsCounted(s, v, i);
    }
  }

  lemma HandOffKeepsCounted(s: State, i: nat)
    requires Counted(s)
    ensures Counted(AfterHandOff(s, i))
  {
    if Hands(s, i) && |s.ready| < s.cfg.readyCap {
      var v := AfterHandOff(s, i);
      var f := s.shards[i].scheduler.task.farmId;
      MapSumUpdate(s.shards[i].actors, QueueLength(), f, v.shards[i].actors[f]);
      ShardKeepsCounted(s, v, i);
    }
  }

  /** Actors that leave the map one by one with empty queues take nothing from the queue counter. */
  lemma {:induction false} RemovingEmptyQueues(actors: map<int, Actor>, kept: map<int, Actor>)
    requires forall f :: f in kept ==> f in actors && kept[f] == actors[f]
    requires forall f :: f in actors && f !in kept ==> actors[f].queue == []
    ensures MapSum(actors, QueueLength()) == MapSum(kept, QueueLength())
    decreases |actors|
  {
    var gone := actors.Keys - kept.Keys;
    if gone == {} {
      forall f | f in actors ensures f in kept && kept[f] == actors[f] { assert f !in gone; }
      forall f | f in kept ensures f in actors {}
      assert actors == kept;
    } else {
      var f := SomeElement(gone);
      MapSumSplit(actors, QueueLength(), f);
      RemovingEmptyQueues(actors - {f}, kept);
    }
  }

  lemma EvictIdleKeepsCounted(s: State, i: nat, now: Time)
    requires Counted(s)
    ensures Counted(AfterEvictIdle(s, i, now))
  {
    var v := AfterEvictIdle(s, i, now);
    if i < |s.shards| && s.shards[i].scheduler.Idle? {
      RemovingEmptyQueues(s.shards[i].actors, v.shards[i].actors);
      SubmapIsSmaller(v.shards[i].actors, s.shards[i].actors);
      ShardKeepsCounted(s, v, i);
    }
  }

  lemma SubmapIsSmaller(small: map<int, Actor>, big: map<int, Actor>)
    requires small.Keys <= big.Keys
    ensures |small| <= |big|
  {
    SubsetIsSmaller(small.Keys, big.Keys);
  }

  lemma {:induction false} SubsetIsSmaller<T>(a: set<T>, b: set<T>)
    requires a <= b
    ensures |a| <= |b|
  {
    if a != {} {
      var x :| x in a;
      SubsetIsSmaller(a - {x}, b - {x});
    }
  }

  lemma SubmitKeepsCounted(s: State, t: Task)
    requires Counted(s)
    ensures Counted(AfterSubmit(s, t))
  {
    if CanSubmit(s, t) { ShardKeepsCounted(s, AfterSubmit(s, t), Home(s, t.farmId)); }
  }

  lemma DropHandOffKeepsCounted(s: State, i: nat)
    requires Counted(s)
    ensures Counted(AfterDropHandOff(s, i))
  {
    if !s.live && Hands(s, i) { ShardKeepsCounted(s, AfterDropHandOff(s, i), i); }
  }

  lemma FailAllKeepsCounted(s: State, i: nat)
    requires Counted(s)
    ensures Counted(AfterFailAll(s, i))
  {
    if !s.live && i < |s.shards| && s.shards[i].scheduler.Idle? { ShardKeepsCounted(s, AfterFailAll(s, i), i); }
  }

  lemma ReportKeepsCounted(s: State, k: nat)
    requires Counted(s)
    ensures Counted(AfterReport(s, k))
  {
    if CanReport(s, k) { ShardKeepsCounted(s, AfterReport(s, k), s.workers[k].completion.item.shard); }
  }

  lemma StepKeepsCounted(s: State, step: Step)
    requires Core(s) && Counted(s)
    ensures Counted(Next(s, step))
  {
    match step
    case Submit(t) => SubmitKeepsCounted(s, t);
    case Accept(i, now) => AcceptKeepsCounted(s, i, now);
    case TryDispatch(i, now) => TryDispatchKeepsCounted(s, i, now);
    case Complete(i, now) => CompleteKeepsCounted(s, i, now);
    case HandOff(i) => HandOffKeepsCounted(s, i);
    case DropHandOff(i) => DropHandOffKeepsCounted(s, i);
    case EvictIdle(i, now) => EvictIdleKeepsCounted(s, i, now);
    case FailAll(i) => FailAllKeepsCounted(s, i);
    case Report(k) => ReportKeepsCounted(s, k);
    case _ =>
  }

  // ---- Acceptance order and the chain of executions ----

  function Tasks(log: seq<Execution>): seq<Task> { seq(|log|, k requires 0 <= k < |log| => log[k].task) }

  /** The tasks of f in the ready channel, oldest first. */
  function ReadyTasks(ready: seq<Item>, f: int): seq<Task> {
    if ready == [] then []
    else (if ready[0].task.farmId == f then [ready[0].task] else []) + ReadyTasks(ready[1..], f)
  }

  lemma {:induction false} ReadyTasksPush(ready: seq<Item>, x: Item, f: int)
    ensures ReadyTasks(ready + [x], f) == ReadyTasks(ready, f) + if x.task.farmId == f then [x.task] else []
  {
    if ready == [] {
      assert ready + [x] == [x] && [x][1..] == [];
    } else {
      assert (ready + [x])[1..] == ready[1..] + [x];
      ReadyTasksPush(ready[1..], x, f);
      var head := if ready[0].task.farmId == f then [ready[0].task] else [];
      var last := if x.task.farmId == f then [x.task] else [];
      assert ReadyTasks(ready + [x], f) == head + (ReadyTasks(ready[1..], f) + last);
      Regroup(head, ReadyTasks(ready[1..], f), last);
    }
  }

  lemma Regroup(a: seq<Task>, b: seq<Task>, c: seq<Task>)
    ensures a + (b + c) == (a + b) + c
  {
  }

  /** Everything admitted for f has been started, or waits in this order: ready, in hand, queued. */
  ghost predicate InOrder(s: State, f: int)
    requires |s.shards| > 0
  {
    Lookup(s.hist.admitted, f) == Tasks(LogOf(s, f)) + ReadyTasks(s.ready, f) + HeldFor(s, f) + QueueOf(s, f)
  }

  /** No execution is under way. */
  predicate Settled(log: seq<Execution>) { log == [] || log[|log| - 1].done.Some? }

  /** The hot snapshot that actor id holds after this log: the one its last execution left, or none. */
  function Leaves(log: seq<Execution>, id: nat): Option<Hot> {
    if log != [] && log[|log| - 1].actorId == id && log[|log| - 1].done.Some? then log[|log| - 1].done.value.0 else None
  }

  predicate Link(log: seq<Execution>, k: nat)
    requires k < |log|
  {
    && (k + 1 < |log| ==> log[k].done.Some?)
    && log[k].seen == Leaves(log[..k], log[k].actorId)
  }

  /** One execution at a time, each starting from the snapshot the one before it left on the same actor. */
  ghost predicate Sequential(log: seq<Execution>) {
    forall k {:trigger Link(log, k)} :: 0 <= k < |log| ==> Link(log, k)
  }

  ghost predicate IdsBelow(log: seq<Execution>, next: nat) { forall k :: 0 <= k < |log| ==> log[k].actorId < next }

  ghost predicate FarmSound(s: State, f: int)
    requires |s.shards| > 0
  {
    && (s.live ==> InOrder(s, f))
    && Sequential(LogOf(s, f)) && IdsBelow(LogOf(s, f), s.nextActor)
    && (!RunningAt(s, f) ==> Settled(LogOf(s, f)))
    && (HasActor(s, f) && !ActorOf(s, f).running ==> ActorOf(s, f).snapshot == Leaves(LogOf(s, f), ActorOf(s, f).id))
  }

  predicate ReadyFits(s: State, x: Item) {
    var log := LogOf(s, x.task.farmId); Settled(log) && x.snapshot == Leaves(log, x.actorId)
  }

  predicate ExecutionFits(s: State, x: Item) {
    var log := LogOf(s, x.task.farmId);
    log != [] && log[|log| - 1] == Execution(x.task, x.actorId, x.snapshot, None)
  }

  predicate CompletionFits(s: State, c: Completion) {
    var log := LogOf(s, c.item.task.farmId);
    log != [] && log[|log| - 1] == Execution(c.item.task, c.item.actorId, c.item.snapshot, Some((c.left, c.result)))
  }

  predicate WorkerFits(s: State, w: Worker) {
    (w.Executing? ==> ExecutionFits(s, w.item)) && (w.Reporting? ==> CompletionFits(s, w.completion))
  }

  predicate ReportsFit(s: State, i: nat)
    requires i < |s.shards|
  {
    forall k :: 0 <= k < |s.shards[i].completed| ==> CompletionFits(s, s.shards[i].completed[k])
  }

  ghost predicate ItemsFit(s: State) {
    && (forall k :: 0 <= k < |s.ready| ==> ReadyFits(s, s.ready[k]))
    && (forall k :: 0 <= k < |s.workers| ==> WorkerFits(s, s.workers[k]))
    && (forall i :: 0 <= i < |s.shards| ==> ReportsFit(s, i))
  }

  ghost predicate Ordered(s: State)
    requires |s.shards| > 0
  {
    ItemsFit(s) && forall f {:trigger FarmSound(s, f)} :: FarmSound(s, f)
  }

  /** A scheduler step: logs stay, and new ready items fit. */
  lemma ItemsFitElsewhere(s: State, v: State, i: nat)
    requires ItemsFit(s) && OnlyShard(s, v, i) && v.workers == s.workers && v.hist.executed == s.hist.executed
    requires forall k :: 0 <= k < |v.shards[i].completed| ==> v.shards[i].completed[k] in s.shards[i].completed
    requires v.ready == s.ready || (|v.ready| > 0 && v.ready == s.ready + [v.ready[|v.ready| - 1]] && ReadyFits(v, v.ready[|v.ready| - 1]))
    ensures ItemsFit(v)
  {
    forall k | 0 <= k < |v.ready| ensures ReadyFits(v, v.ready[k]) {
      if k < |s.ready| { assert ReadyFits(s, s.ready[k]); }
    }
    forall k | 0 <= k < |v.workers| ensures WorkerFits(v, v.workers[k]) { assert WorkerFits(s, s.workers[k]); }
    forall j | 0 <= j < |v.shards| ensures ReportsFit(v, j) { assert ReportsFit(s, j); }
  }

  lemma AcceptKeepsOrder(s: State, i: nat, now: Time)
    requires Core(s) && Ordered(s)
    ensures Ordered(AfterAccept(s, i, now))
  {
    var v := AfterAccept(s, i, now);
    if CanAccept(s, i) {
      AcceptAdmits(s, i, now);
      ItemsFitElsewhere(s, v, i);
      forall f ensures FarmSound(v, f) { AcceptKeepsFarmSound(s, i, now, f); }
    }
  }

  lemma AcceptKeepsFarmSound(s: State, i: nat, now: Time, f: int)
    requires Shape(s) && CanAccept(s, i) && FarmSound(s, f)
    ensures |AfterAccept(s, i, now).shards| > 0 && FarmSound(AfterAccept(s, i, now), f)
  {
    var t := s.shards[i].inbox[0];
    if f == t.farmId {
      AcceptHasEffect(s, i, now);
      AcceptKeepsFarm(s, AfterAccept(s, i, now), f, t);
    } else {
      AcceptElsewhere(s, i, now, f);
      FarmUntouched(s, AfterAccept(s, i, now), f);
    }
  }

  /** Nothing about farm f differs between s and v. */
  ghost predicate SameFarm(s: State, v: State, f: int) {
    && |s.shards| > 0 && |v.shards| > 0
    && LogOf(v, f) == LogOf(s, f) && v.nextActor >= s.nextActor && v.live == s.live && v.ready == s.ready
    && Lookup(v.hist.admitted, f) == Lookup(s.hist.admitted, f) && HeldFor(v, f) == HeldFor(s, f)
    && HasActor(v, f) == HasActor(s, f) && (HasActor(v, f) ==> ActorOf(v, f) == ActorOf(s, f))
  }

  lemma AcceptElsewhere(s: State, i: nat, now: Time, f: int)
    requires Shape(s) && CanAccept(s, i) && f != s.shards[i].inbox[0].farmId
    ensures SameFarm(s, AfterAccept(s, i, now), f)
  {
    var v := AfterAccept(s, i, now);
    var t := s.shards[i].inbox[0];
    assert Home(v, f) == Home(s, f);
    if t.farmId !in s.shards[i].actors {
      assert SameFarm(s, v, f);
    } else if !s.shards[i].actors[t.farmId].running || |s.shards[i].actors[t.farmId].queue| >= s.cfg.farmQueueCap {
      assert SameFarm(s, v, f);
    } else {
      assert SameFarm(s, v, f);
    }
  }

  /** A step that touches neither f's actor, nor its log, nor its tasks on the way. */
  lemma FarmUntouched(s: State, v: State, f: int)
    requires |s.shards| > 0 && |v.shards| > 0 && FarmSound(s, f)
    requires LogOf(v, f) == LogOf(s, f) && v.nextActor >= s.nextActor && (v.live ==> s.live)
    requires v.live ==> Lookup(v.hist.admitted, f) == Lookup(s.hist.admitted, f) && HeldFor(v, f) == HeldFor(s, f)
                        && ReadyTasks(v.ready, f) == ReadyTasks(s.ready, f)
    requires HasActor(v, f) == HasActor(s, f) && (HasActor(v, f) ==> ActorOf(v, f) == ActorOf(s, f))
    ensures FarmSound(v, f)
  {
  }

  /** What accept does to the farm of the task it takes: nothing, a fresh actor, or one more in its queue. */
  ghost predicate AcceptEffect(s: State, v: State, f: int, t: Task)
    requires |s.shards| > 0 && |v.shards| > 0
  {
    && v.hist.executed == s.hist.executed && v.ready == s.ready && v.live == s.live && v.nextActor >= s.nextActor
    && HeldFor(v, f) == HeldFor(s, f) == []
    && (KeptActor(s, v, f) || FreshActor(s, v, f) || QueuedBehind(s, v, f, t))
  }

  ghost predicate KeptActor(s: State, v: State, f: int)
    requires |s.shards| > 0 && |v.shards| > 0
  {
    v.hist.admitted == s.hist.admitted && HasActor(v, f) && HasActor(s, f) && ActorOf(v, f) == ActorOf(s, f)
  }

  ghost predicate FreshActor(s: State, v: State, f: int)
    requires |s.shards| > 0 && |v.shards| > 0
  {
    && v.hist.admitted == s.hist.admitted && !HasActor(s, f)
    && (HasActor(v, f) ==> ActorOf(v, f) == NewActor(s.nextActor, ActorOf(v, f).lastUsed))
  }

  ghost predicate QueuedBehind(s: State, v: State, f: int, t: Task)
    requires |s.shards| > 0 && |v.shards| > 0
  {
    && v.hist.admitted == Admit(s.hist, t).admitted && RunningAt(s, f) && HasActor(v, f)
    && ActorOf(v, f) == ActorOf(s, f).(queue := ActorOf(s, f).queue + [t])
  }

  lemma AcceptHasEffect(s: State, i: nat, now: Time)
    requires Shape(s) && CanAccept(s, i)
    ensures var t := s.shards[i].inbox[0]; AcceptEffect(s, AfterAccept(s, i, now), t.farmId, t)
  {
    assert ShardShape(s, i);
    var v := AfterAccept(s, i, now);
    var t := s.shards[i].inbox[0];
    var f := t.farmId;
    assert Home(s, f) == i == Home(v, f);
    if f !in s.shards[i].actors {
      assert FreshActor(s, v, f);
    } else if !s.shards[i].actors[f].running || |s.shards[i].actors[f].queue| >= s.cfg.farmQueueCap {
      assert KeptActor(s, v, f);
    } else {
      assert QueuedBehind(s, v, f, t);
    }
  }

  lemma AcceptKeepsFarm(s: State, v: State, f: int, t: Task)
    requires |s.shards| > 0 && |v.shards| > 0 && FarmSound(s, f) && t.farmId == f && AcceptEffect(s, v, f, t)
    ensures FarmSound(v, f)
  {
    var log := LogOf(s, f);
    assert log != [] ==> log[|log| - 1].actorId < s.nextActor;
  }

  /** The scheduler of shard i put x into the ready channel: a task it admitted just now, or one it held. */
  ghost predicate Starts(s: State, v: State, i: nat, x: Item) {
    && OnlyShard(s, v, i) && v.workers == s.workers && v.ready == s.ready + [x] && x.shard == i
    && v.shards[i].completed == s.shards[i].completed && v.hist.executed == s.hist.executed && v.shards[i].scheduler.Idle?
    && (|| (s.shards[i].scheduler.Dispatching? && s.shards[i].scheduler.task == x.task && v.hist.admitted == Admit(s.hist, x.task).admitted)
        || (s.shards[i].scheduler == Holding(x.task) && v.hist.admitted == s.hist.admitted))
    && (var f := x.task.farmId;
        && f in s.shards[i].actors && f in v.shards[i].actors
        && v.shards[i].actors == s.shards[i].actors[f := v.shards[i].actors[f]]
        && (var a := s.shards[i].actors[f];
            && x.actorId == a.id && x.snapshot == a.snapshot
            && v.shards[i].actors[f] == a.(running := true, inflight := Some(x.task), lastUsed := v.shards[i].actors[f].lastUsed)))
  }

  lemma StartKeepsOrder(s: State, v: State, i: nat, x: Item)
    requires Core(s) && Ordered(s) && Starts(s, v, i, x)
    ensures Ordered(v)
  {
    assert ShardShape(s, i);
    var f := x.task.farmId;
    assert Home(s, f) == i == Home(v, f);
    assert FarmSound(s, f);
    ItemsFitElsewhere(s, v, i);
    forall g ensures FarmSound(v, g) {
      assert FarmSound(s, g);
      ReadyTasksPush(s.ready, x, g);
      if g == f { StartKeepsFarm(s, v, i, x); } else { StartElsewhere(s, v, i, x, g); }
    }
  }

  lemma StartKeepsFarm(s: State, v: State, i: nat, x: Item)
    requires Core(s) && FarmSound(s, x.task.farmId) && Starts(s, v, i, x)
    ensures FarmSound(v, x.task.farmId)
  {
    assert ShardShape(s, i);
    var f := x.task.farmId;
    assert Home(s, f) == i == Home(v, f);
    ReadyTasksPush(s.ready, x, f);
  }

  lemma StartElsewhere(s: State, v: State, i: nat, x: Item, g: int)
    requires Core(s) && FarmSound(s, g) && Starts(s, v, i, x) && g != x.task.farmId
    ensures FarmSound(v, g)
  {
    assert Home(v, g) == Home(s, g);
    ReadyTasksPush(s.ready, x, g);
    FarmUntouched(s, v, g);
  }

  lemma TryDispatchKeepsOrder(s: State, i: nat, now: Time)
    requires Core(s) && Ordered(s)
    ensures Ordered(AfterTryDispatch(s, i, now))
  {
    if Dispatches(s, i) {
      var v := AfterTryDispatch(s, i, now);
      if |s.ready| < s.cfg.readyCap {
        StartKeepsOrder(s, v, i, v.ready[|s.ready|]);
      } else {
        RefusalKeepsOrder(s, v, i);
      }
    }
  }

  /** The ready channel was full: the answer is backpressure, and an actor made for this task is dropped. */
  ghost predicate Refuses(s: State, v: State, i: nat) {
    && Dispatches(s, i) && OnlyShard(s, v, i) && v.ready == s.ready && v.workers == s.workers && v.hist == s.hist
    && v.shards[i].completed == s.shards[i].completed && v.shards[i].scheduler.Idle?
    && (v.shards[i].actors == s.shards[i].actors
        || (s.shards[i].scheduler.created && v.shards[i].actors == s.shards[i].actors - {s.shards[i].scheduler.task.farmId}))
  }

  lemma RefusalKeepsOrder(s: State, v: State, i: nat)
    requires Core(s) && Ordered(s) && Refuses(s, v, i)
    ensures Ordered(v)
  {
    ItemsFitElsewhere(s, v, i);
    forall g ensures FarmSound(v, g) {
      assert FarmSound(s, g);
      if g == s.shards[i].scheduler.task.farmId { RefusedFarmStaysSound(s, v, i); } else { RefusedElsewhere(s, v, i, g); }
    }
  }

  lemma RefusedFarmStaysSound(s: State, v: State, i: nat)
    requires Core(s) && Refuses(s, v, i) && FarmSound(s, s.shards[i].scheduler.task.farmId)
    ensures FarmSound(v, s.shards[i].scheduler.task.farmId)
  {
    assert ShardShape(s, i);
    var f := s.shards[i].scheduler.task.farmId;
    assert Home(s, f) == i == Home(v, f);
    assert HeldFor(s, f) == HeldFor(v, f) == [] && QueueOf(v, f) == QueueOf(s, f);
  }

  lemma RefusedElsewhere(s: State, v: State, i: nat, g: int)
    requires Core(s) && Refuses(s, v, i) && FarmSound(s, g) && g != s.shards[i].scheduler.task.farmId
    ensures FarmSound(v, g)
  {
    assert Home(v, g) == Home(s, g);
    FarmUntouched(s, v, g);
  }

  lemma HandOffKeepsOrder(s: State, i: nat)
    requires Core(s) && Ordered(s)
    ensures Ordered(AfterHandOff(s, i))
  {
    if Hands(s, i) && |s.ready| < s.cfg.readyCap {
      var v := AfterHandOff(s, i);
      StartKeepsOrder(s, v, i, v.ready[|s.ready|]);
    }
  }

  lemma CompleteKeepsOrder(s: State, i: nat, now: Time)
    requires Core(s) && Ordered(s)
    ensures Ordered(AfterComplete(s, i, now))
  {
    var v := AfterComplete(s, i, now);
    if CanComplete(s, i) {
      CompleteCompletes(s, i, now);
      ItemsFitElsewhere(s, v, i);
      forall f ensures FarmSound(v, f) {
        assert FarmSound(s, f);
        if f == s.shards[i].completed[0].item.task.farmId {
          CompletedFarmSound(s, v, i);
        } else {
          FarmUntouchedByComplete(s, v, i, f);
          FarmUntouched(s, v, f);
        }
      }
    }
  }

  lemma FarmUntouchedByComplete(s: State, v: State, i: nat, f: int)
    requires Core(s) && Completes(s, v, i) && f != s.shards[i].completed[0].item.task.farmId
    ensures |v.shards| > 0 && HasActor(v, f) == HasActor(s, f) && (HasActor(v, f) ==> ActorOf(v, f) == ActorOf(s, f))
    ensures HeldFor(v, f) == HeldFor(s, f)
  {
    assert ShardShape(s, i);
    var g := s.shards[i].completed[0].item.task.farmId;
    assert ActorShape(g, s.shards[i].actors[g], s.cfg.farmQueueCap, s.nextActor);
  }

  lemma CompletedFarmSound(s: State, v: State, i: nat)
    requires Core(s) && Ordered(s) && Completes(s, v, i)
    ensures FarmSound(v, s.shards[i].completed[0].item.task.farmId)
  {
    var c := s.shards[i].completed[0];
    var f := c.item.task.farmId;
    CompletionIsTheOnlyItem(s, i);
    assert FarmSound(s, f) && ReportsFit(s, i) && CompletionFits(s, c) && ShardShape(s, i);
    assert Home(v, f) == i;
    assert ActorShape(f, s.shards[i].actors[f], s.cfg.farmQueueCap, s.nextActor);
    var queue := s.shards[i].actors[f].queue;
    assert queue != [] ==> queue == [queue[0]] + queue[1..];
  }

  lemma EvictIdleKeepsOrder(s: State, i: nat, now: Time)
    requires Core(s) && Ordered(s)
    ensures Ordered(AfterEvictIdle(s, i, now))
  {
    var v := AfterEvictIdle(s, i, now);
    if i < |s.shards| && s.shards[i].scheduler.Idle? {
      ItemsFitElsewhere(s, v, i);
      forall f ensures FarmSound(v, f) {
        assert FarmSound(s, f);
      }
    }
  }

  /** Steps that touch neither logs, nor the ready channel, nor what an actor holds. */
  lemma PlainKeepsOrder(s: State, v: State, i: nat)
    requires Core(s) && Ordered(s) && OnlyShard(s, v, i) && v.workers == s.workers && v.ready == s.ready
    requires v.hist.executed == s.hist.executed && v.hist.admitted == s.hist.admitted
    requires v.shards[i].completed == s.shards[i].completed && v.shards[i].actors == s.shards[i].actors
    requires s.live ==> v.shards[i].scheduler == s.shards[i].scheduler
    ensures Ordered(v)
  {
    ItemsFitElsewhere(s, v, i);
    forall f ensures FarmSound(v, f) {
      assert FarmSound(s, f);
    }
  }

  lemma TakeKeepsOrder(s: State, k: nat)
    requires Core(s) && Ordered(s)
    ensures Ordered(AfterTake(s, k))
  {
    var v := AfterTake(s, k);
    if CanTake(s, k) {
      var f := s.ready[0].task.farmId;
      TakeKeepsItems(s, k);
      forall g ensures FarmSound(v, g) {
        assert FarmSound(s, g);
        if g == f { TakeKeepsFarm(s, k); } else { FarmUntouched(s, v, g); }
      }
    }
  }

  lemma TakeKeepsItems(s: State, k: nat)
    requires Core(s) && Ordered(s) && CanTake(s, k)
    ensures ItemsFit(AfterTake(s, k))
  {
    var x := s.ready[0];
    var f := x.task.farmId;
    assert ItemSound(s, x) && LoadExact(s, f);
    var mid := s.(ready := s.ready[1..]);
    NothingInTransit(mid, f);
    HomeOfReports(s);
    OneLogChanges(s, mid, AfterTake(s, k), f, k);
  }

  lemma TakeKeepsFarm(s: State, k: nat)
    requires Core(s) && Ordered(s) && CanTake(s, k)
    ensures FarmSound(AfterTake(s, k), s.ready[0].task.farmId)
  {
    var x := s.ready[0];
    var f := x.task.farmId;
    assert FarmSound(s, f) && ReadyFits(s, x) && ItemSound(s, x) && ShardShape(s, x.shard);
    assert RunningAt(s, f);
    TakeExtendsLog(LogOf(s, f), Execution(x.task, x.actorId, x.snapshot, None), s.nextActor);
    assert LogOf(AfterTake(s, k), f) == LogOf(s, f) + [Execution(x.task, x.actorId, x.snapshot, None)];
  }

  lemma TakeExtendsLog(log: seq<Execution>, e: Execution, next: nat)
    requires Sequential(log) && IdsBelow(log, next) && Settled(log) && e.seen == Leaves(log, e.actorId) && e.actorId < next
    ensures Sequential(log + [e]) && IdsBelow(log + [e], next) && Tasks(log + [e]) == Tasks(log) + [e.task]
  {
    forall k | 0 <= k < |log + [e]| ensures Link(log + [e], k) {
      if k < |log| {
        assert Link(log, k);
        assert (log + [e])[..k] == log[..k];
      } else {
        assert (log + [e])[..k] == log;
      }
    }
  }

  /** When only f's log changes and f has nothing else in transit, every other item still fits. */
  lemma OneLogChanges(s: State, mid: State, v: State, f: int, k: nat)
    requires |s.shards| > 0 && ItemsFit(s) && k < |s.workers|
    requires mid == s.(ready := mid.ready, workers := mid.workers) && NoItems(mid, f)
    requires v.shards == s.shards && v.ready == mid.ready && |mid.workers| == |s.workers| == |v.workers| && v.cfg == s.cfg
    requires mid.ready == s.ready || (s.ready != [] && mid.ready == s.ready[1..])
    requires forall j :: 0 <= j < |s.workers| && j != k ==> mid.workers[j] == s.workers[j]
    requires v.workers == mid.workers[k := v.workers[k]] && WorkerFits(v, v.workers[k])
    requires forall g :: g != f ==> LogOf(v, g) == LogOf(s, g)
    requires forall i :: 0 <= i < |s.shards| ==> forall n :: 0 <= n < |s.shards[i].completed| && s.shards[i].completed[n].item.task.farmId == f ==> i == Home(s, f)
    ensures ItemsFit(v)
  {
    forall j | 0 <= j < |v.ready| ensures ReadyFits(v, v.ready[j]) {
      assert ReadyFits(s, s.ready[if mid.ready == s.ready then j else j + 1]);
      assert mid.ready[j].task.farmId != f;
    }
    forall j | 0 <= j < |v.workers| ensures WorkerFits(v, v.workers[j]) {
      if j != k {
        assert WorkerFits(s, s.workers[j]);
        assert CarriesFor(f)(mid.workers[j]) == 0;
      }
    }
    forall i | 0 <= i < |v.shards| ensures ReportsFit(v, i) {
      assert ReportsFit(s, i);
      forall n | 0 <= n < |v.shards[i].completed| ensures CompletionFits(v, v.shards[i].completed[n]) {
        assert CompletionFits(s, s.shards[i].completed[n]);
        assert i == Home(s, f) ==> mid.shards[Home(mid, f)].completed[n].item.task.farmId != f;
      }
    }
  }

  lemma FinishKeepsOrder(s: State, k: nat, left: Option<Hot>, result: int)
    requires Core(s) && Ordered(s)
    ensures Ordered(AfterFinish(s, k, left, result))
  {
    var v := AfterFinish(s, k, left, result);
    if CanFinish(s, k) {
      var x := s.workers[k].item;
      var f := x.task.farmId;
      assert WorkerFits(s, s.workers[k]) && WorkerSound(s, s.workers[k]) && ShardShape(s, x.shard);
      assert LoadExact(s, f);
      var mid := s.(workers := s.workers[k := Free]);
      SeqSumUpdate(s.workers, CarriesFor(f), k, Free);
      NothingInTransit(mid, f);
      HomeOfReports(s);
      OneLogChanges(s, mid, v, f, k);
      forall g ensures FarmSound(v, g) {
        assert FarmSound(s, g);
        if g == f {
          FinishKeepsLog(LogOf(s, f), Some((left, result)), s.nextActor);
        }
      }
    }
  }

  lemma HomeOfReports(s: State)
    requires Core(s)
    ensures forall i :: 0 <= i < |s.shards| ==>
              forall n :: 0 <= n < |s.shards[i].completed| ==> Home(s, s.shards[i].completed[n].item.task.farmId) == i
  {
    forall i, n | 0 <= i < |s.shards| && 0 <= n < |s.shards[i].completed|
      ensures Home(s, s.shards[i].completed[n].item.task.farmId) == i
    {
      assert ShardShape(s, i) && ReportsSound(s, i);
      assert ItemSound(s, s.shards[i].completed[n].item);
    }
  }

  lemma FinishKeepsLog(log: seq<Execution>, done: Option<(Option<Hot>, int)>, next: nat)
    requires log != [] && Sequential(log) && IdsBelow(log, next) && done.Some?
    ensures var after := log[|log| - 1 := log[|log| - 1].(done := done)];
      Sequential(after) && IdsBelow(after, next) && Tasks(after) == Tasks(log) && Settled(after)
  {
    var after := log[|log| - 1 := log[|log| - 1].(done := done)];
    forall k | 0 <= k < |after| ensures Link(after, k) {
      assert Link(log, k);
      assert after[..k] == log[..k];
    }
  }

  lemma ReportKeepsOrder(s: State, k: nat)
    requires Core(s) && Ordered(s)
    ensures Ordered(AfterReport(s, k))
  {
    var v := AfterReport(s, k);
    if CanReport(s, k) {
      var i := s.workers[k].completion.item.shard;
      assert WorkerFits(s, s.workers[k]);
      forall j | 0 <= j < |v.ready| ensures ReadyFits(v, v.ready[j]) { assert ReadyFits(s, s.ready[j]); }
      forall j | 0 <= j < |v.workers| ensures WorkerFits(v, v.workers[j]) { assert WorkerFits(s, s.workers[j]); }
      forall j | 0 <= j < |v.shards| ensures ReportsFit(v, j) { assert ReportsFit(s, j); }
      forall f ensures FarmSound(v, f) {
        assert FarmSound(s, f);
      }
    }
  }

  lemma WorkerResetKeepsOrder(s: State, v: State, k: nat, w: Worker)
    requires Core(s) && Ordered(s) && k < |s.workers| && (w.Free? || w.Stopped?)
    requires v == s.(workers := s.workers[k := w], outcomes := v.outcomes)
    ensures Ordered(v)
  {
    forall j | 0 <= j < |v.ready| ensures ReadyFits(v, v.ready[j]) { assert ReadyFits(s, s.ready[j]); }
    forall j | 0 <= j < |v.workers| ensures WorkerFits(v, v.workers[j]) { assert WorkerFits(s, s.workers[j]); }
    forall j | 0 <= j < |v.shards| ensures ReportsFit(v, j) { assert ReportsFit(s, j); }
    forall f ensures FarmSound(v, f) {
      assert FarmSound(s, f);
    }
  }

  lemma CancelKeepsOrder(s: State)
    requires Core(s) && Ordered(s)
    ensures Ordered(s.(live := false))
  {
    var v := s.(live := false);
    forall j | 0 <= j < |v.ready| ensures ReadyFits(v, v.ready[j]) { assert ReadyFits(s, s.ready[j]); }
    forall j | 0 <= j < |v.workers| ensures WorkerFits(v, v.workers[j]) { assert WorkerFits(s, s.workers[j]); }
    forall j | 0 <= j < |v.shards| ensures ReportsFit(v, j) { assert ReportsFit(s, j); }
    forall f ensures FarmSound(v, f) {
      assert FarmSound(s, f);
    }
  }

  lemma StepKeepsOrder(s: State, step: Step)
    requires Core(s) && Ordered(s)
    ensures |Next(s, step).shards| > 0 && Ordered(Next(s, step))
  {
    StepKeepsCore(s, step);
    match step
    case Submit(t) => if CanSubmit(s, t) { PlainKeepsOrder(s, Next(s, step), Home(s, t.farmId)); }
    case Accept(i, now) => AcceptKeepsOrder(s, i, now);
    case TryDispatch(i, now) => TryDispatchKeepsOrder(s, i, now);
    case Complete(i, now) => CompleteKeepsOrder(s, i, now);
    case HandOff(i) => HandOffKeepsOrder(s, i);
    case DropHandOff(i) => if Next(s, step) != s { PlainKeepsOrder(s, Next(s, step), i); }
    case EvictIdle(i, now) => EvictIdleKeepsOrder(s, i, now);
    case FailAll(i) => if Next(s, step) != s { PlainKeepsOrder(s, Next(s, step), i); }
    case Take(k) => TakeKeepsOrder(s, k);
    case Finish(k, left, result) => FinishKeepsOrder(s, k, left, result);
    case Report(k) => ReportKeepsOrder(s, k);
    case Abandon(k) => if Next(s, step) != s { WorkerResetKeepsOrder(s, Next(s, step), k, Free); }
    case StopWorker(k) => if Next(s, step) != s { WorkerResetKeepsOrder(s, Next(s, step), k, Stopped); }
    case Cancel => CancelKeepsOrder(s);
  }
}
