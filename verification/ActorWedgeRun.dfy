/** A run into a stuck state, for every configuration that has room for one. */
module ActorWedgeRun {
  import opened Prelude
  import opened ActorMachine
  import opened ActorInvariants
  import opened ActorTheorems
  import opened ActorWedge

  ghost predicate Reachable(cfg: Config, n: nat, s: State) { exists steps :: Run(cfg, n, steps) == s }

  /** Different farms, all of them at home on shard i. */
  ghost predicate FarmsOf(cfg: Config, n: nat, i: nat, farms: seq<int>)
    requires n > 0
  {
    && (forall j, k :: 0 <= j < k < |farms| ==> farms[j] != farms[k])
    && (forall k :: 0 <= k < |farms| ==> cfg.hash(farms[k]) % n == i)
  }

  /** Shard a gets the farms `on`, in that order, and shard b the farm `off`. */
  datatype Plan = Plan(cfg: Config, n: nat, a: nat, b: nat, on: seq<int>, off: int)

  ghost predicate Fits(p: Plan) {
    && WellConfigured(p.cfg, p.n) && p.a < p.n && p.b < p.n && p.a != p.b
    && |p.on| == 2 * p.cfg.workers + p.cfg.readyCap < p.cfg.maxActors
    && FarmsOf(p.cfg, p.n, p.a, p.on) && p.cfg.hash(p.off) % p.n == p.b
  }

  /** How far the run is: the farms of `on` it used, the channels, and what waits behind the first farm's task. */
  datatype Stage = Stage(used: nat, ready: seq<Item>, workers: seq<Worker>, completed: seq<Completion>,
                         scheduler: Scheduler, queue: seq<Task>)

  ghost predicate ShardAt(p: Plan, shard: Shard, v: Stage)
    requires v.used <= |p.on|
  {
    && shard.inbox == [] && shard.completed == v.completed && shard.scheduler == v.scheduler
    && (forall f :: f in shard.actors ==> f in p.on[..v.used])
    && (v.used > 0 && v.scheduler.Idle? ==>
          p.on[0] in shard.actors && shard.actors[p.on[0]].running && shard.actors[p.on[0]].queue == v.queue)
  }

  ghost predicate At(p: Plan, s: State, v: Stage) {
    && Fits(p) && Reachable(p.cfg, p.n, s) && s.cfg == p.cfg && s.live && |s.shards| == p.n
    && s.activeActors == v.used <= |p.on| && s.ready == v.ready && s.workers == v.workers
    && ShardAt(p, s.shards[p.a], v)
    && s.shards[p.b].inbox == [] && s.shards[p.b].scheduler.Idle? && p.off !in s.shards[p.b].actors
    && (forall t :: t in s.hist.taken ==> t.farmId in p.on[..v.used] && (v.queue == [] ==> t.id == 0))
  }

  // ---- Single steps ----

  lemma Go(cfg: Config, n: nat, s: State, step: Step) returns (t: State)
    requires Reachable(cfg, n, s)
    ensures t == Next(s, step) && Reachable(cfg, n, t)
  {
    t := Next(s, step);
    var steps :| Run(cfg, n, steps) == s;
    assert (steps + [step])[..|steps|] == steps;
    assert Run(cfg, n, steps + [step]) == t;
  }

  lemma Submitted(p: Plan, s: State, i: nat, t: Task) returns (v: State)
    requires Reachable(p.cfg, p.n, s) && CanSubmit(s, t) && Home(s, t.farmId) == i && s.shards[i].inbox == []
    ensures Reachable(p.cfg, p.n, v) && v == PutShard(s, i, s.shards[i].(inbox := [t]))
  {
    v := Go(p.cfg, p.n, s, Submit(t));
    assert s.shards[i].inbox + [t] == [t];
  }

  lemma Accepted(p: Plan, s: State, i: nat, t: Task) returns (v: State)
    requires Reachable(p.cfg, p.n, s) && i < |s.shards| && s.shards[i].inbox == [t]
    requires s.shards[i].scheduler.Idle? && t.farmId !in s.shards[i].actors && s.activeActors < s.cfg.maxActors
    ensures Reachable(p.cfg, p.n, v)
    ensures v == PutShard(s, i, s.shards[i].(inbox := [], scheduler := Dispatching(t, true),
                   actors := s.shards[i].actors[t.farmId := NewActor(s.nextActor, 0)]))
                 .(activeActors := s.activeActors + 1, nextActor := s.nextActor + 1, hist := v.hist)
    ensures v.hist.taken == s.hist.taken + {t}
  {
    v := Go(p.cfg, p.n, s, Accept(i, 0));
    assert [t][1..] == [];
  }

  /** A task of a farm without actor is submitted, accepted and put into the ready channel. */
  lemma Offered(p: Plan, s: State, i: nat, t: Task) returns (v: State, x: Item)
    requires Reachable(p.cfg, p.n, s) && CanSubmit(s, t) && Home(s, t.farmId) == i
    requires s.shards[i].inbox == [] && s.shards[i].scheduler.Idle? && t.farmId !in s.shards[i].actors
    requires |s.ready| < s.cfg.readyCap && s.activeActors < s.cfg.maxActors
    ensures Reachable(p.cfg, p.n, v) && x == Item(i, s.nextActor, t, None)
    ensures v == PutShard(s, i, s.shards[i].(actors :=
                   s.shards[i].actors[t.farmId := Actor(s.nextActor, true, Some(t), [], None, 0)]))
                 .(ready := s.ready + [x], activeActors := s.activeActors + 1, nextActor := s.nextActor + 1, hist := v.hist)
    ensures v.hist.taken == s.hist.taken + {t}
  {
    x := Item(i, s.nextActor, t, None);
    v := Submitted(p, s, i, t);
    v := Accepted(p, v, i, t);
    v := Go(p.cfg, p.n, v, TryDispatch(i, 0));
    var started := s.shards[i].actors[t.farmId := Actor(s.nextActor, true, Some(t), [], None, 0)];
    assert v.shards[i].actors == started;
    assert v.shards == s.shards[i := s.shards[i].(actors := started)];
  }

  /** A farm that is not used yet can be offered. */
  lemma NextFarmIsNew(p: Plan, s: State, v: Stage)
    requires At(p, s, v) && v.scheduler == Idle && v.used < |p.on|
    ensures CanSubmit(s, Task(0, p.on[v.used])) && Home(s, p.on[v.used]) == p.a && p.on[v.used] !in p.on[..v.used]
    ensures p.on[v.used] !in s.shards[p.a].actors && p.on[..v.used + 1] == p.on[..v.used] + [p.on[v.used]]
  {
  }

  lemma OfferOn(p: Plan, s: State, v: Stage) returns (t: State, x: Item)
    requires At(p, s, v) && v.scheduler == Idle && v.used < |p.on| && |v.ready| < p.cfg.readyCap && (v.used == 0 ==> v.queue == [])
    ensures At(p, t, v.(used := v.used + 1, ready := v.ready + [x])) && x.shard == p.a && x.task.farmId == p.on[v.used]
  {
    NextFarmIsNew(p, s, v);
    t, x := Offered(p, s, p.a, Task(0, p.on[v.used]));
    OfferedFarmIsUsed(p, s.shards[p.a], t.shards[p.a], v, x, Actor(s.nextActor, true, Some(x.task), [], None, 0));
  }

  lemma OfferedFarmIsUsed(p: Plan, was: Shard, shard: Shard, v: Stage, x: Item, started: Actor)
    requires v.used < |p.on| && ShardAt(p, was, v) && v.scheduler == Idle && started.running && started.queue == []
    requires shard == was.(actors := was.actors[p.on[v.used] := started]) && (v.used == 0 ==> v.queue == [])
    requires p.on[..v.used + 1] == p.on[..v.used] + [p.on[v.used]] && p.on[v.used] !in p.on[..v.used]
    ensures ShardAt(p, shard, v.(used := v.used + 1, ready := v.ready + [x]))
  {
    assert v.used > 0 ==> p.on[0] in p.on[..v.used];
  }

  lemma Takes(p: Plan, s: State, v: Stage, k: nat) returns (t: State)
    requires At(p, s, v) && k < |v.workers| && v.workers[k].Free? && v.ready != []
    ensures At(p, t, v.(ready := v.ready[1..], workers := v.workers[k := Executing(v.ready[0])]))
  {
    t := Go(p.cfg, p.n, s, Take(k));
  }

  lemma Finishes(p: Plan, s: State, v: Stage, k: nat) returns (t: State)
    requires At(p, s, v) && k < |v.workers| && v.workers[k].Executing?
    ensures At(p, t, v.(workers := v.workers[k := Reporting(Completion(v.workers[k].item, None, 0))]))
  {
    t := Go(p.cfg, p.n, s, Finish(k, None, 0));
  }

  lemma Reports(p: Plan, s: State, v: Stage, k: nat) returns (t: State)
    requires At(p, s, v) && k < |v.workers| && v.workers[k].Reporting? && v.workers[k].completion.item.shard == p.a
    requires |v.completed| < p.cfg.workers
    ensures At(p, t, v.(completed := v.completed + [v.workers[k].completion], workers := v.workers[k := Free]))
  {
    t := Go(p.cfg, p.n, s, Report(k));
  }

  /** Worker k finishes an item of shard a, reports it, and takes the next one. */
  lemma Rotates(p: Plan, s: State, v: Stage, k: nat) returns (t: State)
    requires At(p, s, v) && k < |v.workers| && v.workers[k].Executing? && v.workers[k].item.shard == p.a
    requires |v.completed| < p.cfg.workers && v.ready != []
    ensures At(p, t, v.(ready := v.ready[1..], workers := v.workers[k := Executing(v.ready[0])],
                        completed := v.completed + [Completion(v.workers[k].item, None, 0)]))
  {
    var c := Completion(v.workers[k].item, None, 0);
    var v1 := v.(workers := v.workers[k := Reporting(c)]);
    var v2 := v1.(completed := v.completed + [c], workers := v1.workers[k := Free]);
    t := Finishes(p, s, v, k);
    t := Reports(p, t, v1, k);
    t := Takes(p, t, v2, k);
    assert v2.workers[k := Executing(v.ready[0])] == v.workers[k := Executing(v.ready[0])];
  }

  /** A second task of the first farm waits behind its running task. */
  lemma QueuesSecond(p: Plan, s: State, v: Stage) returns (t: State)
    requires At(p, s, v) && v.scheduler == Idle && v.used > 0 && v.queue == []
    ensures At(p, t, v.(queue := [Task(1, p.on[0])]))
  {
    var second := Task(1, p.on[0]);
    assert Home(s, second.farmId) == p.a;
    t := Submitted(p, s, p.a, second);
    t := Go(p.cfg, p.n, t, Accept(p.a, 0));
    assert [second][1..] == [] && [] + [second] == [second];
  }

  /** Its completion puts the second task into the scheduler's hand. */
  lemma HoldsSecond(p: Plan, s: State, v: Stage) returns (t: State)
    requires At(p, s, v) && v.scheduler == Idle && v.used > 0 && v.queue == [Task(1, p.on[0])]
    requires v.completed != [] && v.completed[0].item.task.farmId == p.on[0]
    ensures At(p, t, v.(completed := v.completed[1..], scheduler := Holding(Task(1, p.on[0]))))
  {
    var steps :| Run(p.cfg, p.n, steps) == s;
    CompletionFindsItsActor(p.cfg, p.n, steps, p.a);
    t := Go(p.cfg, p.n, s, Complete(p.a, 0));
  }

  // ---- The run ----

  /** The first k workers execute items of shard a, the others are free. */
  ghost predicate BusyOnA(p: Plan, workers: seq<Worker>, k: nat) {
    && |workers| == p.cfg.workers
    && (forall j :: 0 <= j < |workers| ==> if j < k then workers[j].Executing? && workers[j].item.shard == p.a else workers[j].Free?)
  }

  lemma {:induction false} FillWorkers(p: Plan, k: nat) returns (s: State, v: Stage)
    requires Fits(p) && k <= p.cfg.workers
    ensures At(p, s, v) && v == Stage(k, [], v.workers, [], Idle, [])
    ensures BusyOnA(p, v.workers, k) && (k > 0 ==> v.workers[0].item.task.farmId == p.on[0])
  {
    if k == 0 {
      s := ActorMachine.Start(p.cfg, p.n);
      v := Stage(0, [], s.workers, [], Idle, []);
      assert Run(p.cfg, p.n, []) == s;
    } else {
      var u;
      s, u := FillWorkers(p, k - 1);
      var x;
      s, x := OfferOn(p, s, u);
      s := Takes(p, s, u.(used := k, ready := [] + [x]), k - 1);
      assert ([] + [x])[1..] == [];
      v := u.(used := k, workers := u.workers[k - 1 := Executing(x)]);
    }
  }

  ghost predicate FirstIsDone(p: Plan, v: Stage) {
    p.on != [] && v.completed != [] && v.completed[0].item.task.farmId == p.on[0]
  }

  lemma {:induction false} FillCompleted(p: Plan, k: nat) returns (s: State, v: Stage)
    requires Fits(p) && k <= p.cfg.workers
    ensures At(p, s, v) && v == Stage(p.cfg.workers + k, [], v.workers, v.completed, Idle, [Task(1, p.on[0])])
    ensures BusyOnA(p, v.workers, p.cfg.workers) && |v.completed| == k
    ensures if k == 0 then v.workers[0].item.task.farmId == p.on[0] else FirstIsDone(p, v)
  {
    if k == 0 {
      s, v := FillWorkers(p, p.cfg.workers);
      s := QueuesSecond(p, s, v);
      v := v.(queue := [Task(1, p.on[0])]);
    } else {
      var u;
      s, u := FillCompleted(p, k - 1);
      var x;
      s, x := OfferOn(p, s, u);
      var u1 := u.(used := u.used + 1, ready := [] + [x]);
      s := Rotates(p, s, u1, k - 1);
      assert ([] + [x])[1..] == [];
      v := u1.(ready := [], workers := u.workers[k - 1 := Executing(x)], completed := u.completed + [Completion(u.workers[k - 1].item, None, 0)]);
    }
  }

  ghost predicate AllOnA(p: Plan, items: seq<Item>) { forall i :: 0 <= i < |items| ==> items[i].shard == p.a }

  lemma {:induction false} FillReady(p: Plan, r: nat) returns (s: State, v: Stage)
    requires Fits(p) && r <= p.cfg.readyCap
    ensures At(p, s, v) && v == Stage(2 * p.cfg.workers + r, v.ready, v.workers, v.completed, Idle, [Task(1, p.on[0])])
    ensures BusyOnA(p, v.workers, p.cfg.workers) && |v.completed| == p.cfg.workers && FirstIsDone(p, v)
    ensures |v.ready| == r && AllOnA(p, v.ready)
  {
    if r == 0 {
      s, v := FillCompleted(p, p.cfg.workers);
    } else {
      var u;
      s, u := FillReady(p, r - 1);
      var x;
      s, x := OfferOn(p, s, u);
      v := u.(used := u.used + 1, ready := u.ready + [x]);
    }
  }

  /** The scheduler of a waits, both channels are full, and the workers carry items of a. */
  ghost predicate Closing(p: Plan, s: State, k: nat) {
    && Reachable(p.cfg, p.n, s) && s.live && |s.ready| >= s.cfg.readyCap && BlockedAt(s, p.a) && |s.workers| == p.cfg.workers
    && (forall j :: 0 <= j < |s.workers| ==>
          if j < k then s.workers[j].Reporting? && s.workers[j].completion.item.shard == p.a
          else s.workers[j].Executing? && s.workers[j].item.shard == p.a)
  }

  /** The other scheduler takes the place in the ready channel that a's worker made. */
  lemma OtherTakesThePlace(p: Plan, s: State, v: Stage) returns (t: State)
    requires At(p, s, v) && v.scheduler.Holding? && |v.ready| == p.cfg.readyCap - 1 && |v.completed| == p.cfg.workers
    requires BusyOnA(p, v.workers, p.cfg.workers)
    ensures Closing(p, t, 0)
  {
    assert Home(s, p.off) == p.b;
    assert p.off !in p.on;
    var x;
    t, x := Offered(p, s, p.b, Task(0, p.off));
  }

  lemma {:induction false} AllFinish(p: Plan, s: State, k: nat) returns (t: State)
    requires Closing(p, s, 0) && k <= p.cfg.workers
    ensures Closing(p, t, k)
  {
    t := s;
    if k > 0 {
      var u := AllFinish(p, s, k - 1);
      t := Go(p.cfg, p.n, u, Finish(k - 1, None, 0));
    }
  }

  /** The whole run: it ends with a's scheduler, both channels and all workers waiting for each other. */
  lemma RunIntoTheWedge(p: Plan) returns (s: State)
    requires Fits(p)
    ensures Reachable(p.cfg, p.n, s) && Wedged(s, p.a)
  {
    var v;
    s, v := FillReady(p, p.cfg.readyCap);
    s := HoldsSecond(p, s, v);
    v := v.(completed := v.completed[1..], scheduler := Holding(Task(1, p.on[0])));
    s := Rotates(p, s, v, 0);
    v := v.(ready := v.ready[1..], workers := v.workers[0 := Executing(v.ready[0])], completed := v.completed + [Completion(v.workers[0].item, None, 0)]);
    s := OtherTakesThePlace(p, s, v);
    s := AllFinish(p, s, p.cfg.workers);
    var steps :| Run(p.cfg, p.n, steps) == s;
    RunIsGood(p.cfg, p.n, steps);
  }

  // ---- The theorem ----

  ghost predicate ManyFarms(cfg: Config, n: nat, i: nat, m: nat)
    requires n > 0
  {
    exists farms :: |farms| == m && FarmsOf(cfg, n, i, farms)
  }

  /** The hash sends farms to every shard, as many as one likes. */
  ghost predicate Spreads(cfg: Config, n: nat)
    requires n > 0
  {
    forall i: nat, m: nat :: i < n ==> ManyFarms(cfg, n, i, m)
  }

  ghost predicate CanGetStuck(cfg: Config, n: nat) { exists steps {:trigger Run(cfg, n, steps)} :: Stuck(Run(cfg, n, steps)) }

  /**
   * A stuck state is reachable if and only if there are two schedulers and the limit on actors leaves room for
   * twice the workers, the ready channel and one more.
   */
  lemma StuckIsReachableExactly(cfg: Config, n: nat)
    requires WellConfigured(cfg, n) && Spreads(cfg, n)
    ensures CanGetStuck(cfg, n) <==> n >= 2 && cfg.maxActors >= 2 * cfg.workers + cfg.readyCap + 1
  {
    forall steps | Stuck(Run(cfg, n, steps)) ensures n >= 2 && cfg.maxActors >= 2 * cfg.workers + cfg.readyCap + 1 {
      StuckNeedsActors(cfg, n, steps);
    }
    if n >= 2 && cfg.maxActors >= 2 * cfg.workers + cfg.readyCap + 1 {
      var steps := StuckRun(cfg, n);
    }
  }

  lemma StuckRun(cfg: Config, n: nat) returns (steps: seq<Step>)
    requires WellConfigured(cfg, n) && Spreads(cfg, n) && n >= 2 && cfg.maxActors >= 2 * cfg.workers + cfg.readyCap + 1
    ensures Stuck(Run(cfg, n, steps))
  {
    assert ManyFarms(cfg, n, 0, 2 * cfg.workers + cfg.readyCap) && ManyFarms(cfg, n, 1, 1);
    var on :| |on| == 2 * cfg.workers + cfg.readyCap && FarmsOf(cfg, n, 0, on);
    var off :| |off| == 1 && FarmsOf(cfg, n, 1, off);
    var s := RunIntoTheWedge(Plan(cfg, n, 0, 1, on, off[0]));
    WedgedIsStuck(s, 0);
    steps :| Run(cfg, n, steps) == s;
  }

  /** One worker, a ready channel of one place and four actors are enough. */
  const WEDGE_CONFIG := Config(1, 1, 1, 1, 4, 0, (f: int) => if f >= 0 then f else 0)

  lemma TwoSchedulersCanWedge() returns (s: State)
    ensures Reachable(WEDGE_CONFIG, 2, s) && Wedged(s, 0)
  {
    s := RunIntoTheWedge(Plan(WEDGE_CONFIG, 2, 0, 1, [0, 2, 4], 1));
  }
}
