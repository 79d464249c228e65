/** When the actor runtime can stand still for good: the exact bounds, and a run for all of them. */
module ActorWedge {
  import opened Prelude
  import opened ActorMachine
  import opened ActorInvariants
  import opened ActorOrder
  import opened ActorTheorems

  /**
   * The ready channel is full, and every worker waits for room in the full completion channel of a scheduler
   * that itself waits for room in the ready channel.
   */
  ghost predicate Stuck(s: State) {
    && s.live && |s.ready| >= s.cfg.readyCap
    && (forall k :: 0 <= k < |s.workers| ==> s.workers[k].Reporting? && BlockedAt(s, s.workers[k].completion.item.shard))
  }

  predicate BlockedAt(s: State, i: nat) {
    i < |s.shards| && s.shards[i].scheduler.Holding? && |s.shards[i].completed| >= s.cfg.workers
  }

  lemma WedgedIsStuck(s: State, a: nat)
    requires Wedged(s, a)
    ensures Stuck(s)
  {
  }

  /** Nothing but cancellation gets the workers out of it. */
  lemma StuckIsForever(s: State, step: Step)
    requires Stuck(s) && !step.Cancel?
    ensures Stuck(Next(s, step)) && Next(s, step).workers == s.workers && Next(s, step).ready == s.ready
  {
    if SchedulerStep(step) { SchedulersStayStuck(s, step); } else { OthersStayStuck(s, step); }
  }

  lemma SchedulersStayStuck(s: State, step: Step)
    requires Stuck(s) && SchedulerStep(step)
    ensures var v := Next(s, step); v.workers == s.workers && v.ready == s.ready && Stuck(v)
  {
    var v := Next(s, step);
    SchedulersPassNothing(s, step);
    forall k | 0 <= k < |v.workers| ensures v.workers[k].Reporting? && BlockedAt(v, v.workers[k].completion.item.shard) {
      SchedulersStayBlocked(s, step, s.workers[k].completion.item.shard);
    }
  }

  lemma SchedulersPassNothing(s: State, step: Step)
    requires s.live && |s.ready| >= s.cfg.readyCap && SchedulerStep(step)
    ensures var v := Next(s, step); v.workers == s.workers && v.ready == s.ready && v.live && v.cfg == s.cfg
  {
  }

  lemma SchedulersStayBlocked(s: State, step: Step, i: nat)
    requires s.live && |s.ready| >= s.cfg.readyCap && SchedulerStep(step) && BlockedAt(s, i)
    ensures BlockedAt(Next(s, step), i)
  {
    match step
    case Accept(j, now) =>
    case TryDispatch(j, now) =>
    case Complete(j, now) =>
    case HandOff(j) =>
    case DropHandOff(j) =>
    case EvictIdle(j, now) =>
    case FailAll(j) =>
  }

  lemma OthersStayStuck(s: State, step: Step)
    requires Stuck(s) && !SchedulerStep(step) && !step.Cancel?
    ensures var v := Next(s, step); v.workers == s.workers && v.ready == s.ready && Stuck(v)
  {
    var v := Next(s, step);
    assert v.workers == s.workers && v.ready == s.ready && v.live && v.cfg == s.cfg;
    forall i | BlockedAt(s, i) ensures BlockedAt(v, i) {}
  }

  // ---- What it takes: actors ----

  function ReadyFarms(items: seq<Item>): seq<int> {
    if items == [] then [] else [items[0].task.farmId] + ReadyFarms(items[1..])
  }

  function ReportingFarms(workers: seq<Worker>): seq<int>
    requires forall k :: 0 <= k < |workers| ==> workers[k].Reporting?
  {
    if workers == [] then []
    else
      assert workers[0].Reporting?;
      [workers[0].completion.item.task.farmId] + ReportingFarms(workers[1..])
  }

  function CompletedFarms(completed: seq<Completion>): seq<int> {
    if completed == [] then [] else [completed[0].item.task.farmId] + CompletedFarms(completed[1..])
  }

  lemma {:induction false} ReadyCount(items: seq<Item>, f: int)
    ensures |ReadyFarms(items)| == |items| && multiset(ReadyFarms(items))[f] == SeqSum(items, IsFor(f))
  {
    if items != [] {
      ReadyCount(items[1..], f);
    }
  }

  lemma {:induction false} ReportingCount(workers: seq<Worker>, f: int)
    requires forall k :: 0 <= k < |workers| ==> workers[k].Reporting?
    ensures |ReportingFarms(workers)| == |workers| && multiset(ReportingFarms(workers))[f] == SeqSum(workers, CarriesFor(f))
  {
    if workers != [] {
      assert workers[0].Reporting?;
      ReportingCount(workers[1..], f);
    }
  }

  lemma {:induction false} CompletedCount(completed: seq<Completion>, f: int)
    ensures |CompletedFarms(completed)| == |completed| && multiset(CompletedFarms(completed))[f] == SeqSum(completed, ReportsFor(f))
  {
    if completed != [] {
      CompletedCount(completed[1..], f);
    }
  }

  function FarmSet(farms: seq<int>): set<int> { set f | f in farms }

  lemma {:induction false} AllDifferent(farms: seq<int>)
    requires forall f :: multiset(farms)[f] <= 1
    ensures |FarmSet(farms)| == |farms|
  {
    if farms != [] {
      var rest := farms[1..];
      assert farms == [farms[0]] + rest;
      forall f ensures multiset(rest)[f] <= 1 { assert multiset(farms)[f] == multiset([farms[0]])[f] + multiset(rest)[f]; }
      AllDifferent(rest);
      var x := farms[0];
      assert multiset(farms)[x] == multiset([x])[x] + multiset(rest)[x];
      assert x !in multiset(rest);
      assert x !in FarmSet(rest) by { assert forall k :: 0 <= k < |rest| ==> rest[k] in multiset(rest); }
      assert FarmSet(farms) == {farms[0]} + FarmSet(rest);
    }
  }

  /** Farms that have actors somewhere are no more than the actors there are. */
  lemma {:induction false} FarmsAreCounted(shards: seq<Shard>, farms: set<int>)
    requires forall f :: f in farms ==> exists i :: 0 <= i < |shards| && f in shards[i].actors
    requires forall i :: 0 <= i < |shards| ==> !shards[i].scheduler.Exited?
    ensures |farms| <= SeqSum(shards, ActorCount())
  {
    if shards == [] {
      assert forall f :: f in farms ==> false;
      assert farms == {};
    } else {
      var here, rest := set f | f in farms && f in shards[0].actors, set f | f in farms && f !in shards[0].actors;
      forall f | f in rest ensures exists i :: 0 <= i < |shards[1..]| && f in shards[1..][i].actors {
        var i :| 0 <= i < |shards| && f in shards[i].actors;
        assert shards[1..][i - 1] == shards[i];
      }
      FarmsAreCounted(shards[1..], rest);
      assert farms == here + rest && here <= shards[0].actors.Keys;
      SubsetIsSmaller(here, shards[0].actors.Keys);
      assert |shards[0].actors.Keys| == |shards[0].actors|;
    }
  }

  lemma {:induction false} SubsetIsSmaller(a: set<int>, b: set<int>)
    requires a <= b
    ensures |a| <= |b|
  {
    if a != {} {
      var x := SomeElement(a);
      SubsetIsSmaller(a - {x}, b - {x});
    }
  }

  lemma {:induction false} CountsAreNatural(items: seq<Item>, workers: seq<Worker>, completed: seq<Completion>, f: int)
    ensures SeqSum(items, IsFor(f)) >= 0 && SeqSum(workers, CarriesFor(f)) >= 0 && SeqSum(completed, ReportsFor(f)) >= 0
    decreases |items| + |workers| + |completed|
  {
    if items != [] { CountsAreNatural(items[1..], workers, completed, f); }
    else if workers != [] { CountsAreNatural(items, workers[1..], completed, f); }
    else if completed != [] { CountsAreNatural(items, workers, completed[1..], f); }
  }

  /** The farms whose tasks are in the ready channel, with workers, completed at a, and in the hand of a's scheduler. */
  ghost function Involved(s: State, a: nat): seq<int>
    requires Stuck(s) && BlockedAt(s, a)
  {
    ReadyFarms(s.ready) + ReportingFarms(s.workers) + CompletedFarms(s.shards[a].completed) + [s.shards[a].scheduler.task.farmId]
  }

  /** What is completed at a belongs to farms of a. */
  lemma {:induction false} CompletedAtHome(s: State, a: nat, completed: seq<Completion>, f: int)
    requires a < |s.shards| && ShardShape(s, a) && Home(s, f) != a
    requires forall k :: 0 <= k < |completed| ==> ItemSound(s, completed[k].item) && completed[k].item.shard == a
    ensures SeqSum(completed, ReportsFor(f)) == 0
  {
    if completed != [] {
      assert ItemSound(s, completed[0].item) && completed[0].item.shard == a;
      CompletedAtHome(s, a, completed[1..], f);
    }
  }

  lemma InvolvedOnce(s: State, a: nat, f: int)
    requires Core(s) && Stuck(s) && BlockedAt(s, a)
    ensures multiset(Involved(s, a))[f] <= 1
    ensures f in Involved(s, a) ==> HasActor(s, f)
  {
    var completed, held := s.shards[a].completed, s.shards[a].scheduler.task.farmId;
    ReadyCount(s.ready, f);
    ReportingCount(s.workers, f);
    CompletedCount(completed, f);
    CountsAreNatural(s.ready, s.workers, s.shards[Home(s, f)].completed, f);
    assert ShardShape(s, a) && ReportsSound(s, a) && LoadExact(s, f);
    assert Home(s, held) == a;
    if Home(s, f) != a { CompletedAtHome(s, a, completed, f); }
    assert multiset([held])[f] == if held == f then 1 else 0;
    assert f in Involved(s, a) <==> multiset(Involved(s, a))[f] >= 1;
  }

  lemma InvolvedHaveActors(s: State, a: nat)
    requires Core(s) && Stuck(s) && BlockedAt(s, a)
    ensures |Involved(s, a)| <= SeqSum(s.shards, ActorCount())
  {
    forall f ensures multiset(Involved(s, a))[f] <= 1 { InvolvedOnce(s, a, f); }
    AllDifferent(Involved(s, a));
    forall f | f in FarmSet(Involved(s, a)) ensures exists i :: 0 <= i < |s.shards| && f in s.shards[i].actors {
      InvolvedOnce(s, a, f);
      assert f in s.shards[Home(s, f)].actors;
    }
    forall i | 0 <= i < |s.shards| ensures !s.shards[i].scheduler.Exited? { assert ShardShape(s, i); }
    FarmsAreCounted(s.shards, FarmSet(Involved(s, a)));
  }

  lemma InvolvedAreMany(s: State, a: nat)
    requires Stuck(s) && BlockedAt(s, a)
    ensures |Involved(s, a)| == |s.ready| + |s.workers| + |s.shards[a].completed| + 1
  {
    ReadyCount(s.ready, 0);
    ReportingCount(s.workers, 0);
    CompletedCount(s.shards[a].completed, 0);
  }

  /**
   * A stuck state needs two schedulers, and an actor for every worker's completion, for every place of the
   * full completion channel and of the ready channel, and for the task in hand.
   */
  lemma StuckNeedsActors(cfg: Config, n: nat, steps: seq<Step>)
    requires WellConfigured(cfg, n) && Stuck(Run(cfg, n, steps))
    ensures n >= 2 && cfg.maxActors >= 2 * cfg.workers + cfg.readyCap + 1
  {
    var s := Run(cfg, n, steps);
    RunIsGood(cfg, n, steps);
    assert |s.workers| == cfg.workers && s.workers[0].Reporting?;
    var a := s.workers[0].completion.item.shard;
    assert BlockedAt(s, a);
    InvolvedAreMany(s, a);
    InvolvedHaveActors(s, a);
    assert s.activeActors == SeqSum(s.shards, ActorCount()) && s.activeActors <= cfg.maxActors;
    if n == 1 { OneSchedulerIsNeverStuck(cfg, steps); }
  }

  lemma StuckWorkersCannotStep(s: State)
    requires Stuck(s)
    ensures !SomeWorkerCanStep(s)
  {
    forall k: nat | k < |s.workers| ensures !CanTake(s, k) && !CanFinish(s, k) && !CanReport(s, k) {
      assert s.workers[k].Reporting? && BlockedAt(s, s.workers[k].completion.item.shard);
    }
  }

  lemma OneSchedulerIsNeverStuck(cfg: Config, steps: seq<Step>)
    requires WellConfigured(cfg, 1)
    ensures !Stuck(Run(cfg, 1, steps))
  {
    var s := Run(cfg, 1, steps);
    RunIsGood(cfg, 1, steps);
    if Stuck(s) {
      StuckWorkersCannotStep(s);
      assert |s.workers| == cfg.workers && s.workers[0].Reporting?;
      assert BlockedAt(s, s.workers[0].completion.item.shard);
      OneSchedulerNeverWedges(cfg, steps);
    }
  }
}
