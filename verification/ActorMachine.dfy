/**
 * The actor runtime as a transition system: scheduler shards, the shared ready channel, a fixed pool of
 * workers and bounded queues per farm. A step touches at most one thing two goroutines share.
 */
module ActorMachine {
  import opened Prelude

  type Time = int

  /** Stands for one hot snapshot; execution turns one into another. */
  type Hot = nat

  /** One Submit call: its identity, and the farm its command names. */
  datatype Task = Task(id: nat, farmId: int)

  datatype Outcome = Executed(result: int) | Backpressure | Cancelled

  /** id tells one allocation of a farm's actor from a later one. */
  datatype Actor = Actor(id: nat, running: bool, inflight: Option<Task>, queue: seq<Task>,
                         snapshot: Option<Hot>, lastUsed: Time)

  datatype Item = Item(shard: nat, actorId: nat, task: Task, snapshot: Option<Hot>)

  datatype Completion = Completion(item: Item, left: Option<Hot>, result: int)

  /** What a scheduler is in the middle of: nothing, the non-blocking send of a task, or the blocking hand-off. */
  datatype Scheduler = Idle | Dispatching(task: Task, created: bool) | Holding(task: Task) | Exited

  datatype Worker = Free | Executing(item: Item) | Reporting(completion: Completion) | Stopped

  datatype Shard = Shard(inbox: seq<Task>, completed: seq<Completion>, actors: map<int, Actor>, scheduler: Scheduler)

  datatype Config = Config(ingressCap: nat, farmQueueCap: nat, readyCap: nat, workers: nat, maxActors: nat,
                           idleTtl: Time, hash: int -> nat)

  /** One execution by a worker: what it saw, and what it left once it finished. */
  datatype Execution = Execution(task: Task, actorId: nat, seen: Option<Hot>, done: Option<(Option<Hot>, int)>)

  /** What happened so far: tasks taken from inboxes, tasks admitted per farm, executions per farm. */
  datatype History = History(taken: set<Task>, admitted: map<int, seq<Task>>, executed: map<int, seq<Execution>>)

  datatype State = State(cfg: Config, shards: seq<Shard>, ready: seq<Item>, workers: seq<Worker>, live: bool,
                         activeActors: int, queued: int, nextActor: nat, outcomes: map<Task, Outcome>, hist: History)

  datatype Step =
    | Submit(task: Task)
    | Accept(shard: nat, now: Time)
    | TryDispatch(shard: nat, now: Time)
    | Complete(shard: nat, now: Time)
    | HandOff(shard: nat)
    | DropHandOff(shard: nat)
    | EvictIdle(shard: nat, now: Time)
    | FailAll(shard: nat)
    | Take(worker: nat)
    | Finish(worker: nat, left: Option<Hot>, result: int)
    | Report(worker: nat)
    | Abandon(worker: nat)
    | StopWorker(worker: nat)
    | Cancel

  predicate WellConfigured(cfg: Config, shardCount: nat) {
    shardCount > 0 && cfg.ingressCap > 0 && cfg.farmQueueCap > 0 && cfg.readyCap > 0 && cfg.workers > 0 && cfg.maxActors > 0
  }

  function Start(cfg: Config, shardCount: nat): State {
    State(cfg, seq(shardCount, i => Shard([], [], map[], Idle)), [], seq(cfg.workers, k => Free), true, 0, 0, 0,
          map[], History({}, map[], map[]))
  }

  function Home(s: State, farmId: int): (i: nat)
    requires |s.shards| > 0
    ensures i < |s.shards|
  {
    s.cfg.hash(farmId) % |s.shards|
  }

  function Lookup<V>(m: map<int, seq<V>>, k: int): seq<V> { if k in m then m[k] else [] }

  /** The first outcome written to the one-slot result channel is the one its submitter reads. */
  function Deliver(outcomes: map<Task, Outcome>, t: Task, o: Outcome): map<Task, Outcome> {
    if t in outcomes then outcomes else outcomes[t := o]
  }

  function PutShard(s: State, i: nat, shard: Shard): State
    requires i < |s.shards|
  {
    s.(shards := s.shards[i := shard])
  }

  function NewActor(id: nat, now: Time): Actor { Actor(id, false, None, [], None, now) }

  function Admit(h: History, t: Task): History {
    h.(admitted := h.admitted[t.farmId := Lookup(h.admitted, t.farmId) + [t]])
  }

  // ---- The scheduler's steps ----

  predicate CanSubmit(s: State, t: Task) {
    && |s.shards| > 0
    && t !in s.hist.taken && |s.shards[Home(s, t.farmId)].inbox| < s.cfg.ingressCap
    && t !in s.shards[Home(s, t.farmId)].inbox
  }

  function AfterSubmit(s: State, t: Task): State {
    if !CanSubmit(s, t) then s
    else
      var i := Home(s, t.farmId);
      PutShard(s, i, s.shards[i].(inbox := s.shards[i].inbox + [t]))
  }

  predicate CanAccept(s: State, i: nat) { i < |s.shards| && s.shards[i].scheduler.Idle? && s.shards[i].inbox != [] }

  function AfterAccept(s: State, i: nat, now: Time): State {
    if !CanAccept(s, i) then s
    else
      var t := s.shards[i].inbox[0];
      var shard := s.shards[i].(inbox := s.shards[i].inbox[1..]);
      var s' := s.(hist := s.hist.(taken := s.hist.taken + {t}));
      if t.farmId !in shard.actors then
        if s.activeActors >= s.cfg.maxActors then
          PutShard(s', i, shard).(outcomes := Deliver(s.outcomes, t, Backpressure))
        else
          PutShard(s', i, shard.(actors := shard.actors[t.farmId := NewActor(s.nextActor, now)],
                                 scheduler := Dispatching(t, true)))
            .(activeActors := s.activeActors + 1, nextActor := s.nextActor + 1)
      else
        var a := shard.actors[t.farmId];
        if !a.running then PutShard(s', i, shard.(scheduler := Dispatching(t, false)))
        else if |a.queue| >= s.cfg.farmQueueCap then
          PutShard(s', i, shard).(outcomes := Deliver(s.outcomes, t, Backpressure))
        else
          PutShard(s', i, shard.(actors := shard.actors[t.farmId := a.(queue := a.queue + [t])]))
            .(queued := s.queued + 1, hist := Admit(s'.hist, t))
  }

  predicate Dispatches(s: State, i: nat) {
    && i < |s.shards| && s.shards[i].scheduler.Dispatching?
    && s.shards[i].scheduler.task.farmId in s.shards[i].actors
  }

  /** The scheduler holds the actor it found or made in accept; a full ready channel undoes the making. */
  function AfterTryDispatch(s: State, i: nat, now: Time): State {
    if !Dispatches(s, i) then s
    else
      var shard := s.shards[i];
      var t := shard.scheduler.task;
      var a := shard.actors[t.farmId];
      if |s.ready| < s.cfg.readyCap then
        PutShard(s, i, shard.(actors := shard.actors[t.farmId := a.(running := true, inflight := Some(t), lastUsed := now)],
                              scheduler := Idle))
          .(ready := s.ready + [Item(i, a.id, t, a.snapshot)], hist := Admit(s.hist, t))
      else if shard.scheduler.created then
        PutShard(s, i, shard.(actors := shard.actors - {t.farmId}, scheduler := Idle))
          .(outcomes := Deliver(s.outcomes, t, Backpressure), activeActors := s.activeActors - 1)
      else
        PutShard(s, i, shard.(scheduler := Idle)).(outcomes := Deliver(s.outcomes, t, Backpressure))
  }

  predicate CanComplete(s: State, i: nat) { i < |s.shards| && s.shards[i].scheduler.Idle? && s.shards[i].completed != [] }

  /** The actor found under the farm is not the one the completion belongs to. */
  predicate Mismatch(shard: Shard, c: Completion) {
    c.item.task.farmId !in shard.actors || shard.actors[c.item.task.farmId].id != c.item.actorId
  }

  function AfterComplete(s: State, i: nat, now: Time): State {
    if !CanComplete(s, i) then s
    else
      var c := s.shards[i].completed[0];
      var f := c.item.task.farmId;
      var shard := s.shards[i].(completed := s.shards[i].completed[1..]);
      var s' := s.(outcomes := Deliver(s.outcomes, c.item.task, Executed(c.result)));
      if Mismatch(shard, c) then PutShard(s', i, shard)
      else
        var a := shard.actors[f].(running := false, inflight := None, snapshot := c.left, lastUsed := now);
        if a.queue == [] then PutShard(s', i, shard.(actors := shard.actors[f := a]))
        else
          PutShard(s', i, shard.(actors := shard.actors[f := a.(queue := a.queue[1..])], scheduler := Holding(a.queue[0])))
            .(queued := s.queued - 1)
  }

  predicate Hands(s: State, i: nat) {
    && i < |s.shards| && s.shards[i].scheduler.Holding?
    && s.shards[i].scheduler.task.farmId in s.shards[i].actors
  }

  function AfterHandOff(s: State, i: nat): State {
    if !Hands(s, i) || |s.ready| >= s.cfg.readyCap then s
    else
      var shard := s.shards[i];
      var t := shard.scheduler.task;
      var a := shard.actors[t.farmId];
      PutShard(s, i, shard.(actors := shard.actors[t.farmId := a.(running := true, inflight := Some(t))], scheduler := Idle))
        .(ready := s.ready + [Item(i, a.id, t, a.snapshot)])
  }

  function AfterDropHandOff(s: State, i: nat): State {
    if s.live || !Hands(s, i) then s
    else
      PutShard(s, i, s.shards[i].(scheduler := Idle))
        .(outcomes := Deliver(s.outcomes, s.shards[i].scheduler.task, Cancelled))
  }

  predicate Evictable(a: Actor, now: Time, ttl: Time) { !a.running && a.queue == [] && now - a.lastUsed >= ttl }

  function AfterEvictIdle(s: State, i: nat, now: Time): State {
    if i >= |s.shards| || !s.shards[i].scheduler.Idle? then s
    else
      var actors := s.shards[i].actors;
      var kept := map f | f in actors && !Evictable(actors[f], now, s.cfg.idleTtl) :: actors[f];
      PutShard(s, i, s.shards[i].(actors := kept)).(activeActors := s.activeActors - (|actors| - |kept|))
  }

  function Elements(tasks: seq<Task>): set<Task> { set t | t in tasks }

  /** Every task an actor still owes an answer. */
  function OwedBy(a: Actor): set<Task> {
    (if a.inflight.Some? then {a.inflight.value} else {}) + Elements(a.queue)
  }

  function Owed(actors: map<int, Actor>): set<Task> { set f, t | f in actors && t in OwedBy(actors[f]) :: t }

  ghost function QueueLength(): (int, Actor) -> int { (f: int, a: Actor) => |a.queue| }

  function CancelAll(outcomes: map<Task, Outcome>, tasks: set<Task>): map<Task, Outcome> {
    outcomes + map t | t in tasks && t !in outcomes :: Cancelled
  }

  ghost function AfterFailAll(s: State, i: nat): State {
    if s.live || i >= |s.shards| || !s.shards[i].scheduler.Idle? then s
    else
      var shard := s.shards[i];
      var drained := Elements(shard.inbox);
      PutShard(s, i, shard.(inbox := [], scheduler := Exited))
        .(outcomes := CancelAll(s.outcomes, Owed(shard.actors) + drained),
          queued := s.queued - MapSum(shard.actors, QueueLength()),
          activeActors := s.activeActors - |shard.actors|,
          hist := s.hist.(taken := s.hist.taken + drained))
  }

  // ---- The workers' steps ----

  predicate CanTake(s: State, k: nat) { k < |s.workers| && s.workers[k].Free? && s.ready != [] }

  function AfterTake(s: State, k: nat): State {
    if !CanTake(s, k) then s
    else
      var x := s.ready[0];
      var f := x.task.farmId;
      s.(ready := s.ready[1..], workers := s.workers[k := Executing(x)],
         hist := s.hist.(executed := s.hist.executed[f :=
           Lookup(s.hist.executed, f) + [Execution(x.task, x.actorId, x.snapshot, None)]]))
  }

  predicate CanFinish(s: State, k: nat) { k < |s.workers| && s.workers[k].Executing? }

  function AfterFinish(s: State, k: nat, left: Option<Hot>, result: int): State {
    if !CanFinish(s, k) then s
    else
      var x := s.workers[k].item;
      var f := x.task.farmId;
      var log := Lookup(s.hist.executed, f);
      s.(workers := s.workers[k := Reporting(Completion(x, left, result))],
         hist := if log == [] then s.hist else s.hist.(executed := s.hist.executed[f :=
           log[|log| - 1 := log[|log| - 1].(done := Some((left, result)))]]))
  }

  predicate CanReport(s: State, k: nat) {
    && k < |s.workers| && s.workers[k].Reporting?
    && s.workers[k].completion.item.shard < |s.shards|
    && |s.shards[s.workers[k].completion.item.shard].completed| < s.cfg.workers
  }

  function AfterReport(s: State, k: nat): State {
    if !CanReport(s, k) then s
    else
      var c := s.workers[k].completion;
      var i := c.item.shard;
      PutShard(s, i, s.shards[i].(completed := s.shards[i].completed + [c])).(workers := s.workers[k := Free])
  }

  function AfterAbandon(s: State, k: nat): State {
    if s.live || k >= |s.workers| || !s.workers[k].Reporting? then s
    else
      s.(workers := s.workers[k := Free], outcomes := Deliver(s.outcomes, s.workers[k].completion.item.task, Cancelled))
  }

  function AfterStopWorker(s: State, k: nat): State {
    if s.live || k >= |s.workers| || !s.workers[k].Free? then s else s.(workers := s.workers[k := Stopped])
  }

  ghost function Next(s: State, step: Step): State {
    match step
    case Submit(t) => AfterSubmit(s, t)
    case Accept(i, now) => AfterAccept(s, i, now)
    case TryDispatch(i, now) => AfterTryDispatch(s, i, now)
    case Complete(i, now) => AfterComplete(s, i, now)
    case HandOff(i) => AfterHandOff(s, i)
    case DropHandOff(i) => AfterDropHandOff(s, i)
    case EvictIdle(i, now) => AfterEvictIdle(s, i, now)
    case FailAll(i) => AfterFailAll(s, i)
    case Take(k) => AfterTake(s, k)
    case Finish(k, left, result) => AfterFinish(s, k, left, result)
    case Report(k) => AfterReport(s, k)
    case Abandon(k) => AfterAbandon(s, k)
    case StopWorker(k) => AfterStopWorker(s, k)
    case Cancel => s.(live := false)
  }

  ghost function Run(cfg: Config, shardCount: nat, steps: seq<Step>): State {
    if steps == [] then Start(cfg, shardCount)
    else Next(Run(cfg, shardCount, steps[..|steps| - 1]), steps[|steps| - 1])
  }
}
