/** What the actor runtime guarantees over every run, and where it can stand still. */
module ActorTheorems {
  import opened Prelude
  import opened ActorMachine
  import opened ActorInvariants
  import opened ActorOrder
  import opened ActorOutcomes

  ghost predicate Good(s: State) { Core(s) && Ordered(s) && Counted(s) && Accounted(s) }

  lemma StartIsGood(cfg: Config, n: nat)
    requires WellConfigured(cfg, n)
    ensures Good(Start(cfg, n))
  {
    var s := Start(cfg, n);
    assert Core(s) by {
      forall i | 0 <= i < n ensures ShardShape(s, i) {}
      forall f ensures LoadExact(s, f) {
        SeqSumZero(s.workers, CarriesFor(f));
      }
    }
    StartIsCounted(cfg, n);
    StartIsOrdered(cfg, n);
    StartIsAccounted(cfg, n);
  }

  lemma StartIsCounted(cfg: Config, n: nat)
    requires WellConfigured(cfg, n)
    ensures Counted(Start(cfg, n))
  {
    SeqSumZero(Start(cfg, n).shards, ActorCount());
    SeqSumZero(Start(cfg, n).shards, QueueCount());
  }

  lemma StartIsOrdered(cfg: Config, n: nat)
    requires WellConfigured(cfg, n)
    ensures Ordered(Start(cfg, n))
  {
    forall f ensures FarmSound(Start(cfg, n), f) {}
  }

  lemma StartIsAccounted(cfg: Config, n: nat)
    requires WellConfigured(cfg, n)
    ensures Accounted(Start(cfg, n))
  {
    forall f ensures AdmittedOnce(Start(cfg, n), f) {}
  }

  lemma {:induction false} RunIsGood(cfg: Config, n: nat, steps: seq<Step>)
    requires WellConfigured(cfg, n)
    ensures Good(Run(cfg, n, steps)) && Run(cfg, n, steps).cfg == cfg && |Run(cfg, n, steps).shards| == n
  {
    if steps == [] {
      StartIsGood(cfg, n);
    } else {
      RunIsGood(cfg, n, steps[..|steps| - 1]);
      var s := Run(cfg, n, steps[..|steps| - 1]);
      StepKeepsCore(s, steps[|steps| - 1]);
      StepKeepsOrder(s, steps[|steps| - 1]);
      StepKeepsCounted(s, steps[|steps| - 1]);
      StepKeepsAccounted(s, steps[|steps| - 1]);
      StepKeepsFrame(s, steps[|steps| - 1]);
    }
  }

  predicate SchedulerStep(step: Step) {
    step.Accept? || step.TryDispatch? || step.Complete? || step.HandOff? || step.DropHandOff? || step.EvictIdle? || step.FailAll?
  }

  lemma StepKeepsFrame(s: State, step: Step)
    ensures Next(s, step).cfg == s.cfg && |Next(s, step).shards| == |s.shards|
  {
    if SchedulerStep(step) { SchedulerStepKeepsFrame(s, step); } else { OtherStepKeepsFrame(s, step); }
  }

  lemma SchedulerStepKeepsFrame(s: State, step: Step)
    requires SchedulerStep(step)
    ensures Next(s, step).cfg == s.cfg && |Next(s, step).shards| == |s.shards|
  {
    match step
    case Accept(i, now) =>
    case TryDispatch(i, now) =>
    case Complete(i, now) =>
    case HandOff(i) =>
    case DropHandOff(i) =>
    case EvictIdle(i, now) =>
    case FailAll(i) =>
  }

  lemma OtherStepKeepsFrame(s: State, step: Step)
    requires !SchedulerStep(step)
    ensures Next(s, step).cfg == s.cfg && |Next(s, step).shards| == |s.shards|
  {
  }

  /**
   * While the runtime lives, a farm's actor is running exactly when one work item of that farm is in the
   * ready channel, with a worker or completed; never are there two, not even during shutdown.
   */
  lemma RunningMeansOneWorkItem(cfg: Config, n: nat, steps: seq<Step>, f: int)
    requires WellConfigured(cfg, n)
    ensures var s := Run(cfg, n, steps);
      && |s.shards| == n && Load(s, f) <= 1
      && (s.live ==> (RunningAt(s, f) <==> Load(s, f) == 1))
  {
    RunIsGood(cfg, n, steps);
    assert LoadExact(Run(cfg, n, steps), f);
  }

  /**
   * The runtime refines sequential execution per farm. Executions of one farm never overlap, and each
   * starts from the snapshot the previous one of that actor left, or cold; while the runtime lives they
   * follow the order of acceptance, and no task is executed twice.
   */
  lemma FarmsExecuteSequentially(cfg: Config, n: nat, steps: seq<Step>, f: int)
    requires WellConfigured(cfg, n)
    ensures var s := Run(cfg, n, steps); var log := LogOf(s, f);
      && Sequential(log)
      && (s.live ==> Tasks(log) <= Lookup(s.hist.admitted, f))
      && (s.live ==> forall j, k :: 0 <= j < k < |log| ==> log[j].task != log[k].task)
  {
    RunIsGood(cfg, n, steps);
    var s := Run(cfg, n, steps);
    assert FarmSound(s, f) && AdmittedOnce(s, f);
    if s.live {
      var log, admitted := LogOf(s, f), Lookup(s.hist.admitted, f);
      assert admitted[..|log|] == Tasks(log);
      forall j, k | 0 <= j < k < |log| ensures log[j].task != log[k].task {
        assert admitted[j] == Tasks(log)[j] && admitted[k] == Tasks(log)[k];
      }
    }
  }

  /** Both counters equal what they count, and every bound of the configuration holds. */
  lemma CountersAndCapsAreExact(cfg: Config, n: nat, steps: seq<Step>)
    requires WellConfigured(cfg, n)
    ensures var s := Run(cfg, n, steps);
      && |s.shards| == n
      && s.activeActors == SeqSum(s.shards, ActorCount()) <= cfg.maxActors
      && s.queued == SeqSum(s.shards, QueueCount())
      && |s.ready| <= cfg.readyCap
      && (forall i :: 0 <= i < n ==> |s.shards[i].inbox| <= cfg.ingressCap && |s.shards[i].completed| <= cfg.workers)
      && (forall i, f :: 0 <= i < n && f in s.shards[i].actors ==> |s.shards[i].actors[f].queue| <= cfg.farmQueueCap)
  {
    RunIsGood(cfg, n, steps);
    var s := Run(cfg, n, steps);
    forall i | 0 <= i < n
      ensures |s.shards[i].inbox| <= cfg.ingressCap && |s.shards[i].completed| <= cfg.workers
      ensures forall f :: f in s.shards[i].actors ==> |s.shards[i].actors[f].queue| <= cfg.farmQueueCap
    {
      assert ShardShape(s, i);
    }
  }

  /** Looking a completion's farm up always finds the actor that ran it: the defensive branch is dead. */
  lemma CompletionFindsItsActor(cfg: Config, n: nat, steps: seq<Step>, i: nat)
    requires WellConfigured(cfg, n) && CanComplete(Run(cfg, n, steps), i)
    ensures var shard := Run(cfg, n, steps).shards[i]; !Mismatch(shard, shard.completed[0])
  {
    RunIsGood(cfg, n, steps);
    CompletionIsTheOnlyItem(Run(cfg, n, steps), i);
  }

  /**
   * Every task taken from an inbox is answered or still owed by its scheduler; once that scheduler has
   * exited, it is answered. While the runtime lives, an answer is the task's own result or says that it
   * was never admitted, and then it was not executed.
   */
  lemma EveryTakenTaskIsAnswered(cfg: Config, n: nat, steps: seq<Step>, t: Task)
    requires WellConfigured(cfg, n) && t in Run(cfg, n, steps).hist.taken
    ensures var s := Run(cfg, n, steps);
      && |s.shards| == n
      && (t in s.outcomes || Pending(s, t))
      && (s.shards[Home(s, t.farmId)].scheduler.Exited? ==> t in s.outcomes)
      && (s.live && t in s.outcomes ==>
            match s.outcomes[t]
            case Executed(r) => ExecutedAs(LogOf(s, t.farmId), t, r)
            case Backpressure => t !in Tasks(LogOf(s, t.farmId))
            case Cancelled => false)
  {
    RunIsGood(cfg, n, steps);
    var s := Run(cfg, n, steps);
    if s.live && t in s.outcomes {
      assert OutcomeRight(s, t);
      FarmsExecuteSequentially(cfg, n, steps, t.farmId);
      var log, admitted := LogOf(s, t.farmId), Lookup(s.hist.admitted, t.farmId);
      if t in Tasks(log) {
        var k :| 0 <= k < |log| && Tasks(log)[k] == t;
        assert admitted[k] == t;
      }
    }
  }

  // ---- Can it stand still? ----

  ghost function Busy(): Worker -> int { (w: Worker) => if w.Executing? || w.Reporting? then 1 else 0 }

  /** The bound behind the hand-off: a held task and a full ready channel leave room for one completion. */
  ghost predicate RoomForOne(s: State) {
    && |s.shards| == 1
    && (s.live && s.shards[0].scheduler.Holding? ==>
          |s.ready| < s.cfg.readyCap || |s.shards[0].completed| + SeqSum(s.workers, Busy()) <= 2 * s.cfg.workers - 1)
    && (s.live ==> forall k :: 0 <= k < |s.workers| ==> !s.workers[k].Stopped?)
  }

  lemma {:induction false} BusyAtMostAll(workers: seq<Worker>)
    ensures SeqSum(workers, Busy()) <= |workers|
  {
    if workers != [] { BusyAtMostAll(workers[1..]); }
  }

  lemma StepKeepsRoom(s: State, step: Step)
    requires Core(s) && RoomForOne(s)
    ensures RoomForOne(Next(s, step))
  {
    if SchedulerStep(step) { SchedulerStepKeepsRoom(s, step); } else { OtherStepKeepsRoom(s, step); }
  }

  lemma SchedulerStepKeepsRoom(s: State, step: Step)
    requires Core(s) && RoomForOne(s) && SchedulerStep(step)
    ensures RoomForOne(Next(s, step))
  {
    match step
    case Complete(i, now) => CompleteKeepsRoom(s, i, now);
    case Accept(i, now) => AcceptKeepsRoom(s, i, now);
    case _ =>
  }

  lemma OtherStepKeepsRoom(s: State, step: Step)
    requires Core(s) && RoomForOne(s) && !SchedulerStep(step)
    ensures RoomForOne(Next(s, step))
  {
    match step
    case Take(k) => if CanTake(s, k) { SeqSumUpdate(s.workers, Busy(), k, Executing(s.ready[0])); }
    case Finish(k, left, result) => if CanFinish(s, k) { SeqSumUpdate(s.workers, Busy(), k, Next(s, step).workers[k]); }
    case Report(k) => if CanReport(s, k) { SeqSumUpdate(s.workers, Busy(), k, Free); }
    case _ =>
  }

  lemma AcceptKeepsRoom(s: State, i: nat, now: Time)
    requires Core(s) && RoomForOne(s)
    ensures RoomForOne(AfterAccept(s, i, now))
  {
    if CanAccept(s, i) {
      AcceptAdmits(s, i, now);
    }
  }

  lemma CompleteKeepsRoom(s: State, i: nat, now: Time)
    requires Core(s) && RoomForOne(s)
    ensures RoomForOne(AfterComplete(s, i, now))
  {
    if CanComplete(s, i) {
      assert ShardShape(s, 0);
      BusyAtMostAll(s.workers);
      assert i == 0;
      assert |AfterComplete(s, i, now).shards[0].completed| == |s.shards[0].completed| - 1;
    }
  }

  lemma {:induction false} RunKeepsRoom(cfg: Config, steps: seq<Step>)
    requires WellConfigured(cfg, 1)
    ensures RoomForOne(Run(cfg, 1, steps))
  {
    if steps != [] {
      RunKeepsRoom(cfg, steps[..|steps| - 1]);
      RunIsGood(cfg, 1, steps[..|steps| - 1]);
      StepKeepsRoom(Run(cfg, 1, steps[..|steps| - 1]), steps[|steps| - 1]);
    }
  }

  /** Some worker can take, finish or report an item. */
  ghost predicate SomeWorkerCanStep(s: State) {
    exists k {:trigger s.workers[k]} :: 0 <= k < |s.workers| && (CanTake(s, k) || CanFinish(s, k) || CanReport(s, k))
  }

  /** With one scheduler, whenever it waits on a full ready channel, some worker can move. */
  lemma OneSchedulerNeverWedges(cfg: Config, steps: seq<Step>)
    requires WellConfigured(cfg, 1)
    requires var s := Run(cfg, 1, steps);
      s.live && |s.shards| == 1 && s.shards[0].scheduler.Holding? && |s.ready| >= cfg.readyCap
    ensures SomeWorkerCanStep(Run(cfg, 1, steps))
  {
    RunIsGood(cfg, 1, steps);
    RunKeepsRoom(cfg, steps);
    var s := Run(cfg, 1, steps);
    assert ShardShape(s, 0);
    if forall k :: 0 <= k < |s.workers| ==> s.workers[k].Reporting? {
      AllBusy(s.workers);
      assert WorkerSound(s, s.workers[0]);
      assert CanReport(s, 0);
    } else {
      var k :| 0 <= k < |s.workers| && !s.workers[k].Reporting?;
      assert CanTake(s, k) || CanFinish(s, k);
    }
  }

  lemma {:induction false} AllBusy(workers: seq<Worker>)
    requires forall k :: 0 <= k < |workers| ==> workers[k].Reporting?
    ensures SeqSum(workers, Busy()) == |workers|
  {
    if workers != [] {
      assert workers[0].Reporting?;
      AllBusy(workers[1..]);
    }
  }

  /**
   * Shard a waits for room in a full ready channel, and every worker waits for room in a's full
   * completion channel.
   */
  ghost predicate Wedged(s: State, a: nat) {
    && s.live && a < |s.shards| && s.shards[a].scheduler.Holding?
    && |s.ready| >= s.cfg.readyCap && |s.shards[a].completed| >= s.cfg.workers
    && (forall k :: 0 <= k < |s.workers| ==> s.workers[k].Reporting? && s.workers[k].completion.item.shard == a)
  }

  /** Nothing changed for the stuck scheduler, the channels it waits on, or the workers. */
  ghost predicate StuckAlike(s: State, v: State, a: nat)
    requires a < |s.shards|
  {
    && a < |v.shards| && v.live == s.live && v.cfg == s.cfg && v.ready == s.ready && v.workers == s.workers
    && v.shards[a].scheduler == s.shards[a].scheduler && v.shards[a].completed == s.shards[a].completed
  }

  lemma SchedulersLeaveTheWedge(s: State, a: nat, step: Step)
    requires Wedged(s, a) && SchedulerStep(step)
    ensures StuckAlike(s, Next(s, step), a)
  {
  }

  lemma OthersLeaveTheWedge(s: State, a: nat, step: Step)
    requires Wedged(s, a) && !SchedulerStep(step) && !step.Cancel?
    ensures StuckAlike(s, Next(s, step), a)
  {
  }

  /** Nothing short of cancellation resolves a wedge. */
  lemma WedgeIsForever(s: State, a: nat, step: Step)
    requires Wedged(s, a) && !step.Cancel?
    ensures Wedged(Next(s, step), a)
    ensures Next(s, step).ready == s.ready && Next(s, step).workers == s.workers && Next(s, step).shards[a].scheduler == s.shards[a].scheduler
  {
    if SchedulerStep(step) { SchedulersLeaveTheWedge(s, a, step); } else { OthersLeaveTheWedge(s, a, step); }
  }
}
