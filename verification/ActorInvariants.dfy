/** What every step of the actor runtime keeps. */
module ActorInvariants {
  import opened Prelude
  import opened ActorMachine

  // ---- Looking at one farm ----

  predicate HasActor(s: State, f: int)
    requires |s.shards| > 0
  {
    f in s.shards[Home(s, f)].actors
  }

  function ActorOf(s: State, f: int): Actor
    requires |s.shards| > 0 && HasActor(s, f)
  {
    s.shards[Home(s, f)].actors[f]
  }

  predicate RunningAt(s: State, f: int)
    requires |s.shards| > 0
  {
    HasActor(s, f) && ActorOf(s, f).running
  }

  function QueueOf(s: State, f: int): seq<Task>
    requires |s.shards| > 0
  {
    if HasActor(s, f) then ActorOf(s, f).queue else []
  }

  /** The task a completing scheduler is about to hand back to the ready channel. */
  function HeldFor(s: State, f: int): seq<Task>
    requires |s.shards| > 0
  {
    var sched := s.shards[Home(s, f)].scheduler;
    if sched.Holding? && sched.task.farmId == f then [sched.task] else []
  }

  function LogOf(s: State, f: int): seq<Execution> { Lookup(s.hist.executed, f) }

  // ---- Structure of one shard ----

  predicate ActorShape(f: int, a: Actor, cap: nat, nextActor: nat) {
    && a.id < nextActor
    && (a.running <==> a.inflight.Some?)
    && (a.inflight.Some? ==> a.inflight.value.farmId == f)
    && (forall k :: 0 <= k < |a.queue| ==> a.queue[k].farmId == f)
    && |a.queue| <= cap
  }

  predicate SchedulerShape(shard: Shard, live: bool) {
    && (shard.scheduler.Dispatching? ==>
          var f := shard.scheduler.task.farmId;
          f in shard.actors && !shard.actors[f].running
          && (live || shard.scheduler.created ==> shard.actors[f].queue == []))
    && (shard.scheduler.Holding? ==>
          var f := shard.scheduler.task.farmId; f in shard.actors && !shard.actors[f].running)
  }

  /** While the runtime lives, tasks wait only behind a running task or behind the one being handed off. */
  predicate NoStrandedQueue(shard: Shard) {
    forall f :: f in shard.actors && !shard.actors[f].running && shard.actors[f].queue != [] ==>
      shard.scheduler.Holding? && shard.scheduler.task.farmId == f
  }

  predicate ShardShape(s: State, i: nat)
    requires i < |s.shards|
  {
    var shard := s.shards[i];
    && |shard.inbox| <= s.cfg.ingressCap && |shard.completed| <= s.cfg.workers
    && (forall f :: f in shard.actors ==> Home(s, f) == i && ActorShape(f, shard.actors[f], s.cfg.farmQueueCap, s.nextActor))
    && (forall k :: 0 <= k < |shard.inbox| ==> Home(s, shard.inbox[k].farmId) == i)
    && (forall k :: 0 <= k < |shard.completed| ==> shard.completed[k].item.shard == i)
    && SchedulerShape(shard, s.live)
    && (s.live ==> NoStrandedQueue(shard) && !shard.scheduler.Exited?)
  }

  ghost predicate Shape(s: State) {
    && WellConfigured(s.cfg, |s.shards|)
    && |s.workers| == s.cfg.workers && |s.ready| <= s.cfg.readyCap
    && (forall i :: 0 <= i < |s.shards| ==> ShardShape(s, i))
  }

  // ---- Work items ----

  /** An item is the one its actor is running for. */
  predicate ItemSound(s: State, x: Item) {
    && x.shard < |s.shards|
    && (var actors := s.shards[x.shard].actors; var f := x.task.farmId;
        f in actors && actors[f].id == x.actorId && actors[f].running && actors[f].inflight == Some(x.task))
  }

  predicate WorkerSound(s: State, w: Worker) {
    && (w.Executing? ==> ItemSound(s, w.item))
    && (w.Reporting? ==> ItemSound(s, w.completion.item))
  }

  predicate ReportsSound(s: State, i: nat)
    requires i < |s.shards|
  {
    forall k :: 0 <= k < |s.shards[i].completed| ==> ItemSound(s, s.shards[i].completed[k].item)
  }

  ghost predicate ItemsSound(s: State) {
    && (forall k :: 0 <= k < |s.ready| ==> ItemSound(s, s.ready[k]))
    && (forall k :: 0 <= k < |s.workers| ==> WorkerSound(s, s.workers[k]))
    && (forall i :: 0 <= i < |s.shards| ==> ReportsSound(s, i))
  }

  ghost function IsFor(f: int): Item -> int { (x: Item) => if x.task.farmId == f then 1 else 0 }

  ghost function CarriesFor(f: int): Worker -> int {
    (w: Worker) =>
      if w.Executing? && w.item.task.farmId == f then 1
      else if w.Reporting? && w.completion.item.task.farmId == f then 1 else 0
  }

  ghost function ReportsFor(f: int): Completion -> int { (c: Completion) => if c.item.task.farmId == f then 1 else 0 }

  /** How many work items of a farm exist, in the ready channel, with workers, and completed. */
  ghost function Load(s: State, f: int): int
    requires |s.shards| > 0
  {
    SeqSum(s.ready, IsFor(f)) + SeqSum(s.workers, CarriesFor(f)) + SeqSum(s.shards[Home(s, f)].completed, ReportsFor(f))
  }

  ghost predicate LoadExact(s: State, f: int)
    requires |s.shards| > 0
  {
    && Load(s, f) <= (if RunningAt(s, f) then 1 else 0)
    && (s.live ==> Load(s, f) == if RunningAt(s, f) then 1 else 0)
  }

  ghost predicate Loads(s: State)
    requires |s.shards| > 0
  {
    forall f {:trigger LoadExact(s, f)} :: LoadExact(s, f)
  }

  lemma {:induction false} SeqSumAtLeast<T>(s: seq<T>, f: T -> int, i: nat)
    requires i < |s| && forall k :: 0 <= k < |s| ==> f(s[k]) >= 0
    ensures SeqSum(s, f) >= f(s[i])
  {
    assert f(s[0]) >= 0;
    if i == 0 {
      SeqSumNonNegative(s[1..], f);
    } else {
      SeqSumAtLeast(s[1..], f, i - 1);
    }
  }

  lemma {:induction false} SeqSumNonNegative<T>(s: seq<T>, f: T -> int)
    requires forall k :: 0 <= k < |s| ==> f(s[k]) >= 0
    ensures SeqSum(s, f) >= 0
  {
    if s != [] {
      assert f(s[0]) >= 0;
      SeqSumNonNegative(s[1..], f);
    }
  }

  lemma SeqSumPush<T>(s: seq<T>, f: T -> int, x: T)
    ensures SeqSum(s + [x], f) == SeqSum(s, f) + f(x)
  {
    SeqSumAppend(s, [x], f);
    assert [x][1..] == [];
  }

  /** Nothing in transit for f. */
  ghost predicate NoItems(s: State, f: int)
    requires |s.shards| > 0
  {
    && (forall k :: 0 <= k < |s.ready| ==> s.ready[k].task.farmId != f)
    && (forall k :: 0 <= k < |s.workers| ==> CarriesFor(f)(s.workers[k]) == 0)
    && (forall k :: 0 <= k < |s.shards[Home(s, f)].completed| ==> s.shards[Home(s, f)].completed[k].item.task.farmId != f)
  }

  lemma NothingInTransit(s: State, f: int)
    requires |s.shards| > 0 && Load(s, f) <= 0
    ensures NoItems(s, f)
  {
    var done := s.shards[Home(s, f)].completed;
    SeqSumNonNegative(s.ready, IsFor(f));
    SeqSumNonNegative(s.workers, CarriesFor(f));
    SeqSumNonNegative(done, ReportsFor(f));
    forall k | 0 <= k < |s.ready| ensures s.ready[k].task.farmId != f { SeqSumAtLeast(s.ready, IsFor(f), k); }
    forall k | 0 <= k < |s.workers| ensures CarriesFor(f)(s.workers[k]) == 0 { SeqSumAtLeast(s.workers, CarriesFor(f), k); }
    forall k | 0 <= k < |done| ensures done[k].item.task.farmId != f { SeqSumAtLeast(done, ReportsFor(f), k); }
  }

  ghost predicate Core(s: State) { Shape(s) && ItemsSound(s) && Loads(s) }

  // ---- Core, step by step ----

  /** Only shard i changed among the shards. */
  ghost predicate OnlyShard(s: State, v: State, i: nat) {
    && i < |s.shards| == |v.shards|
    && v.shards == s.shards[i := v.shards[i]]
    && v.cfg == s.cfg && v.live == s.live && v.nextActor >= s.nextActor && |v.workers| == |s.workers|
  }

  lemma ShapeElsewhere(s: State, v: State, i: nat)
    requires Shape(s) && OnlyShard(s, v, i) && |v.ready| <= s.cfg.readyCap && ShardShape(v, i)
    ensures Shape(v)
  {
    forall j | 0 <= j < |v.shards| ensures ShardShape(v, j) {
      assert ShardShape(s, j);
    }
  }

  predicate KeepsRunning(a: map<int, Actor>, b: map<int, Actor>) {
    forall f :: f in a && a[f].running ==> f in b && b[f].running && b[f].id == a[f].id && b[f].inflight == a[f].inflight
  }

  lemma ItemCarriesOver(s: State, v: State, i: nat, x: Item)
    requires ItemSound(s, x) && OnlyShard(s, v, i) && KeepsRunning(s.shards[i].actors, v.shards[i].actors)
    ensures ItemSound(v, x)
  {
  }

  /** Items survive a step that moves none of them and leaves running actors alone. */
  lemma ItemsCarryOver(s: State, v: State, i: nat)
    requires ItemsSound(s) && OnlyShard(s, v, i) && KeepsRunning(s.shards[i].actors, v.shards[i].actors)
    requires v.workers == s.workers && v.shards[i].completed == s.shards[i].completed
    requires v.ready == s.ready || (|v.ready| > 0 && v.ready == s.ready + [v.ready[|v.ready| - 1]] && ItemSound(v, v.ready[|v.ready| - 1]))
    ensures ItemsSound(v)
  {
    forall k | 0 <= k < |v.ready| ensures ItemSound(v, v.ready[k]) {
      if k < |s.ready| { ItemCarriesOver(s, v, i, s.ready[k]); }
    }
    forall k | 0 <= k < |v.workers| ensures WorkerSound(v, v.workers[k]) {
      assert WorkerSound(s, s.workers[k]);
      if s.workers[k].Executing? { ItemCarriesOver(s, v, i, s.workers[k].item); }
      if s.workers[k].Reporting? { ItemCarriesOver(s, v, i, s.workers[k].completion.item); }
    }
    forall j | 0 <= j < |v.shards| ensures ReportsSound(v, j) {
      assert ReportsSound(s, j);
      forall k | 0 <= k < |v.shards[j].completed| ensures ItemSound(v, v.shards[j].completed[k].item) {
        ItemCarriesOver(s, v, i, s.shards[j].completed[k].item);
      }
    }
  }

  /** A step that neither moves items nor starts or ends anyone's run. */
  lemma LoadsCarryOver(s: State, v: State, i: nat)
    requires |s.shards| > 0 && Loads(s) && OnlyShard(s, v, i)
    requires v.ready == s.ready && v.workers == s.workers && v.shards[i].completed == s.shards[i].completed
    requires forall f :: f in v.shards[i].actors && v.shards[i].actors[f].running <==>
                         f in s.shards[i].actors && s.shards[i].actors[f].running
    ensures Loads(v)
  {
    forall f ensures LoadExact(v, f) {
      assert LoadExact(s, f);
    }
  }

  /** The scheduler puts the item of a task it holds into the ready channel. */
  lemma StartKeepsItems(s: State, v: State, i: nat, f: int, x: Item)
    requires Core(s) && OnlyShard(s, v, i) && v.workers == s.workers
    requires v.ready == s.ready + [x] && v.shards[i].completed == s.shards[i].completed
    requires f in s.shards[i].actors && !s.shards[i].actors[f].running && x.task.farmId == f && x.shard == i
    requires f in v.shards[i].actors && v.shards[i].actors == s.shards[i].actors[f := v.shards[i].actors[f]]
    requires var a := v.shards[i].actors[f]; a.running && a.inflight == Some(x.task) && a.id == x.actorId
    ensures ItemsSound(v) && Loads(v)
  {
    assert ShardShape(s, i);
    ItemsCarryOver(s, v, i);
    forall g ensures LoadExact(v, g) {
      assert LoadExact(s, g);
      SeqSumPush(s.ready, IsFor(g), x);
      if g != f && Home(s, g) == i {
        assert RunningAt(v, g) == RunningAt(s, g);
      }
    }
  }

  lemma SubmitKeepsCore(s: State, t: Task)
    requires Core(s)
    ensures Core(AfterSubmit(s, t))
  {
    var v := AfterSubmit(s, t);
    if CanSubmit(s, t) {
      var i := Home(s, t.farmId);
      assert ShardShape(s, i);
      ShapeElsewhere(s, v, i);
      ItemsCarryOver(s, v, i);
      LoadsCarryOver(s, v, i);
    }
  }

  /** Accept leaves the actors alone: the task was refused, or its idle actor is about to be offered it. */
  predicate ActorsLeft(s: State, v: State, i: nat, t: Task)
    requires i < |s.shards| == |v.shards|
  {
    && v.shards[i].actors == s.shards[i].actors && v.activeActors == s.activeActors && v.queued == s.queued
    && (v.shards[i].scheduler.Idle?
        || (v.shards[i].scheduler == Dispatching(t, false) && t.farmId in s.shards[i].actors && !s.shards[i].actors[t.farmId].running))
  }

  predicate ActorMade(s: State, v: State, i: nat, t: Task)
    requires i < |s.shards| == |v.shards|
  {
    && t.farmId !in s.shards[i].actors && t.farmId in v.shards[i].actors
    && v.shards[i].actors == s.shards[i].actors[t.farmId := NewActor(s.nextActor, v.shards[i].actors[t.farmId].lastUsed)]
    && v.shards[i].scheduler == Dispatching(t, true) && v.nextActor == s.nextActor + 1
    && v.activeActors == s.activeActors + 1 <= s.cfg.maxActors && v.queued == s.queued
  }

  predicate TaskQueued(s: State, v: State, i: nat, t: Task)
    requires i < |s.shards| == |v.shards|
  {
    && v.shards[i].scheduler.Idle? && v.activeActors == s.activeActors && v.queued == s.queued + 1
    && t.farmId in s.shards[i].actors
    && (var a := s.shards[i].actors[t.farmId];
        && a.running && |a.queue| < s.cfg.farmQueueCap
        && v.shards[i].actors == s.shards[i].actors[t.farmId := a.(queue := a.queue + [t])])
  }

  /** The oldest task of shard i's inbox is taken and refused, prepared for dispatch, or queued. */
  ghost predicate Admits(s: State, v: State, i: nat) {
    && OnlyShard(s, v, i) && v.ready == s.ready && v.workers == s.workers && v.hist.executed == s.hist.executed
    && s.shards[i].inbox != [] && s.shards[i].scheduler.Idle?
    && v.shards[i].completed == s.shards[i].completed && v.shards[i].inbox == s.shards[i].inbox[1..]
    && (var t := s.shards[i].inbox[0]; ActorsLeft(s, v, i, t) || ActorMade(s, v, i, t) || TaskQueued(s, v, i, t))
  }

  lemma AcceptAdmits(s: State, i: nat, now: Time)
    requires CanAccept(s, i)
    ensures Admits(s, AfterAccept(s, i, now), i)
  {
    var v := AfterAccept(s, i, now);
    var t := s.shards[i].inbox[0];
    var actors := s.shards[i].actors;
    if t.farmId !in actors {
      assert ActorsLeft(s, v, i, t) || ActorMade(s, v, i, t);
    } else if !actors[t.farmId].running || |actors[t.farmId].queue| >= s.cfg.farmQueueCap {
      assert ActorsLeft(s, v, i, t);
    } else {
      assert TaskQueued(s, v, i, t);
    }
  }

  lemma AcceptKeepsCore(s: State, i: nat, now: Time)
    requires Core(s)
    ensures Core(AfterAccept(s, i, now))
  {
    if CanAccept(s, i) {
      AcceptAdmits(s, i, now);
      AdmittingKeepsCore(s, AfterAccept(s, i, now), i);
    }
  }

  lemma AdmittingKeepsCore(s: State, v: State, i: nat)
    requires Core(s) && Admits(s, v, i)
    ensures Core(v)
  {
    AdmittingKeepsShard(s, v, i);
    ShapeElsewhere(s, v, i);
    ItemsCarryOver(s, v, i);
    LoadsCarryOver(s, v, i);
  }

  lemma AdmittingKeepsShard(s: State, v: State, i: nat)
    requires Shape(s) && Admits(s, v, i)
    ensures ShardShape(v, i)
  {
    assert ShardShape(s, i);
    var was, sh := s.shards[i], v.shards[i];
    assert Home(s, was.inbox[0].farmId) == i;
    forall k | 0 <= k < |sh.inbox| ensures Home(v, sh.inbox[k].farmId) == i {
      assert sh.inbox[k] == was.inbox[k + 1];
    }
    forall f | f in sh.actors ensures Home(v, f) == i && ActorShape(f, sh.actors[f], v.cfg.farmQueueCap, v.nextActor) {
      if f in was.actors { assert ActorShape(f, was.actors[f], s.cfg.farmQueueCap, s.nextActor); }
    }
    assert SchedulerShape(sh, v.live);
    assert v.live ==> NoStrandedQueue(sh);
  }

  lemma TryDispatchKeepsCore(s: State, i: nat, now: Time)
    requires Core(s)
    ensures Core(AfterTryDispatch(s, i, now))
  {
    var v := AfterTryDispatch(s, i, now);
    if Dispatches(s, i) {
      assert ShardShape(s, i);
      ShapeElsewhere(s, v, i);
      if |s.ready| < s.cfg.readyCap {
        StartKeepsItems(s, v, i, s.shards[i].scheduler.task.farmId, v.ready[|s.ready|]);
      } else {
        ItemsCarryOver(s, v, i);
        LoadsCarryOver(s, v, i);
      }
    }
  }

  lemma HandOffKeepsCore(s: State, i: nat)
    requires Core(s)
    ensures Core(AfterHandOff(s, i))
  {
    var v := AfterHandOff(s, i);
    if Hands(s, i) && |s.ready| < s.cfg.readyCap {
      assert ShardShape(s, i);
      ShapeElsewhere(s, v, i);
      StartKeepsItems(s, v, i, s.shards[i].scheduler.task.farmId, v.ready[|s.ready|]);
    }
  }

  lemma DropHandOffKeepsCore(s: State, i: nat)
    requires Core(s)
    ensures Core(AfterDropHandOff(s, i))
  {
    var v := AfterDropHandOff(s, i);
    if !s.live && Hands(s, i) {
      assert ShardShape(s, i);
      ShapeElsewhere(s, v, i);
      ItemsCarryOver(s, v, i);
      LoadsCarryOver(s, v, i);
    }
  }

  lemma EvictIdleKeepsCore(s: State, i: nat, now: Time)
    requires Core(s)
    ensures Core(AfterEvictIdle(s, i, now))
  {
    var v := AfterEvictIdle(s, i, now);
    if i < |s.shards| && s.shards[i].scheduler.Idle? {
      assert ShardShape(s, i);
      ShapeElsewhere(s, v, i);
      ItemsCarryOver(s, v, i);
      LoadsCarryOver(s, v, i);
    }
  }

  lemma FailAllKeepsCore(s: State, i: nat)
    requires Core(s)
    ensures Core(AfterFailAll(s, i))
  {
    var v := AfterFailAll(s, i);
    if !s.live && i < |s.shards| && s.shards[i].scheduler.Idle? {
      assert ShardShape(s, i);
      ShapeElsewhere(s, v, i);
      ItemsCarryOver(s, v, i);
      LoadsCarryOver(s, v, i);
    }
  }

  /** The state without its oldest completion on shard i, where that farm has nothing else in transit. */
  lemma CompletionIsTheOnlyItem(s: State, i: nat)
    requires Core(s) && i < |s.shards| && s.shards[i].completed != []
    ensures var c := s.shards[i].completed[0]; var f := c.item.task.farmId;
      && !Mismatch(s.shards[i], c)
      && Home(s, f) == i && RunningAt(s, f) && ActorOf(s, f).inflight == Some(c.item.task)
      && NoItems(PutShard(s, i, s.shards[i].(completed := s.shards[i].completed[1..])), f)
  {
    assert ReportsSound(s, i) && ShardShape(s, i);
    var c := s.shards[i].completed[0];
    var f := c.item.task.farmId;
    assert ItemSound(s, c.item);
    assert c.item.shard == i;
    assert LoadExact(s, f);
    NothingInTransit(PutShard(s, i, s.shards[i].(completed := s.shards[i].completed[1..])), f);
  }

  /** The oldest completion of shard i is taken in: its farm's actor stopped, and its next task is in hand. */
  ghost predicate Completes(s: State, v: State, i: nat) {
    && OnlyShard(s, v, i) && v.ready == s.ready && v.workers == s.workers && v.nextActor == s.nextActor
    && s.shards[i].completed != [] && s.shards[i].scheduler.Idle?
    && v.shards[i].completed == s.shards[i].completed[1..] && v.shards[i].inbox == s.shards[i].inbox
    && v.hist == s.hist
    && (var c := s.shards[i].completed[0]; var f := c.item.task.farmId;
        && f in s.shards[i].actors && f in v.shards[i].actors
        && v.shards[i].actors == s.shards[i].actors[f := v.shards[i].actors[f]]
        && v.outcomes == Deliver(s.outcomes, c.item.task, Executed(c.result))
        && RunEnded(s.shards[i].actors[f], v.shards[i].actors[f], c.left, v.shards[i].scheduler))
  }

  predicate RunEnded(was: Actor, after: Actor, left: Option<Hot>, sched: Scheduler) {
    && after == was.(running := false, inflight := None, snapshot := left, lastUsed := after.lastUsed, queue := after.queue)
    && (if was.queue == [] then after.queue == [] && sched == Idle
        else after.queue == was.queue[1..] && sched == Holding(was.queue[0]))
  }

  lemma CompleteCompletes(s: State, i: nat, now: Time)
    requires Core(s) && CanComplete(s, i)
    ensures Completes(s, AfterComplete(s, i, now), i)
  {
    CompletionIsTheOnlyItem(s, i);
  }

  lemma CompleteKeepsCore(s: State, i: nat, now: Time)
    requires Core(s)
    ensures Core(AfterComplete(s, i, now))
  {
    if CanComplete(s, i) {
      var v := AfterComplete(s, i, now);
      CompleteCompletes(s, i, now);
      assert ShardShape(v, i) by {
        assert ShardShape(s, i);
        CompletedShardShape(s, v, i);
      }
      ShapeElsewhere(s, v, i);
      CompletedItemsSound(s, v, i);
      CompletedLoads(s, v, i);
    }
  }

  lemma CompletedShardShape(s: State, v: State, i: nat)
    requires Core(s) && Completes(s, v, i) && ShardShape(s, i)
    ensures ShardShape(v, i)
  {
    CompletionIsTheOnlyItem(s, i);
    var f := s.shards[i].completed[0].item.task.farmId;
    assert ActorShape(f, s.shards[i].actors[f], s.cfg.farmQueueCap, s.nextActor);
  }

  lemma CompletedLoads(s: State, v: State, i: nat)
    requires Core(s) && Completes(s, v, i)
    ensures Loads(v)
  {
    CompletionIsTheOnlyItem(s, i);
    forall g ensures LoadExact(v, g) {
      assert LoadExact(s, g);
    }
  }

  /** No other item belongs to the farm that just completed, so all others still find their actors running. */
  lemma CompletedItemsSound(s: State, v: State, i: nat)
    requires Core(s) && Completes(s, v, i)
    ensures ItemsSound(v)
  {
    var f := s.shards[i].completed[0].item.task.farmId;
    CompletionIsTheOnlyItem(s, i);
    var mid := PutShard(s, i, s.shards[i].(completed := s.shards[i].completed[1..]));
    assert Home(mid, f) == i;
    forall k | 0 <= k < |v.ready| ensures ItemSound(v, v.ready[k]) { OtherItemSound(s, v, i, f, s.ready[k]); }
    forall k | 0 <= k < |v.workers| ensures WorkerSound(v, v.workers[k]) {
      assert WorkerSound(s, s.workers[k]);
      assert CarriesFor(f)(s.workers[k]) == 0;
      if s.workers[k].Executing? { OtherItemSound(s, v, i, f, s.workers[k].item); }
      if s.workers[k].Reporting? { OtherItemSound(s, v, i, f, s.workers[k].completion.item); }
    }
    forall j | 0 <= j < |v.shards| ensures ReportsSound(v, j) {
      assert ReportsSound(s, j) && ShardShape(s, j);
      forall k | 0 <= k < |v.shards[j].completed| ensures ItemSound(v, v.shards[j].completed[k].item) {
        if j == i {
          assert mid.shards[Home(mid, f)].completed[k].item.task.farmId != f;
          OtherItemSound(s, v, i, f, s.shards[j].completed[k + 1].item);
        } else {
          OtherItemSound(s, v, i, f, s.shards[j].completed[k].item);
        }
      }
    }
  }

  lemma OtherItemSound(s: State, v: State, i: nat, f: int, x: Item)
    requires Completes(s, v, i) && f == s.shards[i].completed[0].item.task.farmId
    requires ItemSound(s, x) && (x.task.farmId != f || x.shard != i)
    ensures ItemSound(v, x)
  {
  }

  lemma TakeKeepsCore(s: State, k: nat)
    requires Core(s)
    ensures Core(AfterTake(s, k))
  {
    var v := AfterTake(s, k);
    if CanTake(s, k) {
      ShapeElsewhere(s, v, 0) by { assert ShardShape(s, 0); }
      assert ItemSound(s, s.ready[0]);
      forall j | 0 <= j < |v.workers| ensures WorkerSound(v, v.workers[j]) { assert WorkerSound(s, s.workers[j]); }
      forall j | 0 <= j < |v.shards| ensures ReportsSound(v, j) { assert ReportsSound(s, j); }
      forall f ensures LoadExact(v, f) {
        assert LoadExact(s, f);
        SeqSumUpdate(s.workers, CarriesFor(f), k, Executing(s.ready[0]));
      }
    }
  }

  lemma FinishKeepsCore(s: State, k: nat, left: Option<Hot>, result: int)
    requires Core(s)
    ensures Core(AfterFinish(s, k, left, result))
  {
    var v := AfterFinish(s, k, left, result);
    if CanFinish(s, k) {
      ShapeElsewhere(s, v, 0) by { assert ShardShape(s, 0); }
      forall j | 0 <= j < |v.workers| ensures WorkerSound(v, v.workers[j]) { assert WorkerSound(s, s.workers[j]); }
      forall j | 0 <= j < |v.shards| ensures ReportsSound(v, j) { assert ReportsSound(s, j); }
      forall f ensures LoadExact(v, f) {
        assert LoadExact(s, f);
        SeqSumUpdate(s.workers, CarriesFor(f), k, v.workers[k]);
      }
    }
  }

  lemma ReportKeepsCore(s: State, k: nat)
    requires Core(s)
    ensures Core(AfterReport(s, k))
  {
    var v := AfterReport(s, k);
    if CanReport(s, k) {
      var c := s.workers[k].completion;
      var i := c.item.shard;
      assert WorkerSound(s, s.workers[k]);
      assert ShardShape(s, i);
      ShapeElsewhere(s, v, i);
      forall j | 0 <= j < |v.workers| ensures WorkerSound(v, v.workers[j]) { assert WorkerSound(s, s.workers[j]); }
      forall j | 0 <= j < |v.shards| ensures ReportsSound(v, j) {
        assert ReportsSound(s, j);
        forall n | 0 <= n < |v.shards[j].completed| ensures ItemSound(v, v.shards[j].completed[n].item) {
          if n < |s.shards[j].completed| { assert ItemSound(s, s.shards[j].completed[n].item); }
        }
      }
      forall f ensures LoadExact(v, f) {
        assert LoadExact(s, f);
        SeqSumUpdate(s.workers, CarriesFor(f), k, Free);
        SeqSumPush(s.shards[i].completed, ReportsFor(f), c);
        assert Home(s, c.item.task.farmId) == i;
      }
    }
  }

  /** A worker that leaves an item behind at shutdown; the actor stays marked as running. */
  lemma WorkerResetKeepsCore(s: State, v: State, k: nat, w: Worker)
    requires Core(s) && !s.live && k < |s.workers| && (w.Free? || w.Stopped?)
    requires v == s.(workers := s.workers[k := w], outcomes := v.outcomes)
    ensures Core(v)
  {
    ShapeElsewhere(s, v, 0) by { assert ShardShape(s, 0); }
    forall j | 0 <= j < |v.workers| ensures WorkerSound(v, v.workers[j]) { assert WorkerSound(s, s.workers[j]); }
    forall j | 0 <= j < |v.shards| ensures ReportsSound(v, j) { assert ReportsSound(s, j); }
    forall f ensures LoadExact(v, f) {
      assert LoadExact(s, f);
      SeqSumUpdate(s.workers, CarriesFor(f), k, w);
      assert CarriesFor(f)(w) == 0;
    }
  }

  lemma CancelKeepsCore(s: State)
    requires Core(s)
    ensures Core(s.(live := false))
  {
    var v := s.(live := false);
    forall i | 0 <= i < |v.shards| ensures ShardShape(v, i) { assert ShardShape(s, i); }
    forall i | 0 <= i < |v.shards| ensures ReportsSound(v, i) { assert ReportsSound(s, i); }
    forall k | 0 <= k < |v.workers| ensures WorkerSound(v, v.workers[k]) { assert WorkerSound(s, s.workers[k]); }
    forall f ensures LoadExact(v, f) { assert LoadExact(s, f); }
  }

  lemma StepKeepsCore(s: State, step: Step)
    requires Core(s)
    ensures Core(Next(s, step))
  {
    match step
    case Submit(t) => SubmitKeepsCore(s, t);
    case Accept(i, now) => AcceptKeepsCore(s, i, now);
    case TryDispatch(i, now) => TryDispatchKeepsCore(s, i, now);
    case Complete(i, now) => CompleteKeepsCore(s, i, now);
    case HandOff(i) => HandOffKeepsCore(s, i);
    case DropHandOff(i) => DropHandOffKeepsCore(s, i);
    case EvictIdle(i, now) => EvictIdleKeepsCore(s, i, now);
    case FailAll(i) => FailAllKeepsCore(s, i);
    case Take(k) => TakeKeepsCore(s, k);
    case Finish(k, left, result) => FinishKeepsCore(s, k, left, result);
    case Report(k) => ReportKeepsCore(s, k);
    case Abandon(k) => if Next(s, step) != s { WorkerResetKeepsCore(s, Next(s, step), k, Free); }
    case StopWorker(k) => if Next(s, step) != s { WorkerResetKeepsCore(s, Next(s, step), k, Stopped); }
    case Cancel => CancelKeepsCore(s);
  }
}
