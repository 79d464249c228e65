/** When a farm's actor goes, and what stays hot while it does not. */
module ActorIdle {
  import opened Prelude
  import opened ActorMachine
  import opened ActorInvariants
  import opened ActorOrder
  import opened ActorTheorems

  // ---- One eviction ----

  /** Nothing runs for the farm and nothing waits. */
  predicate Resting(a: Actor) { !a.running && a.queue == [] }

  /**
   * An eviction takes exactly the resting actors last used at least idleTtl before it, counts them off, and
   * leaves every other actor with its snapshot, and everything else, as it was.
   */
  lemma IdleActorsLeaveExactly(s: State, i: nat, now: Time)
    requires i < |s.shards| && s.shards[i].scheduler.Idle?
    ensures var v := Next(s, EvictIdle(i, now)); var actors, kept := s.shards[i].actors, v.shards[i].actors;
      && |v.shards| == |s.shards|
      && (forall f :: f in actors ==> (f in kept <==> actors[f].running || actors[f].queue != [] || now - s.cfg.idleTtl < actors[f].lastUsed))
      && (forall f :: f in kept ==> f in actors && kept[f] == actors[f])
      && v == s.(shards := s.shards[i := s.shards[i].(actors := kept)], activeActors := s.activeActors - (|actors| - |kept|))
  {
  }

  // ---- One step ----

  predicate EvictedBy(s: State, step: Step, f: int)
    requires |s.shards| > 0 && HasActor(s, f)
  {
    && step.EvictIdle? && step.shard == Home(s, f) && s.shards[step.shard].scheduler.Idle?
    && Resting(ActorOf(s, f)) && step.now - ActorOf(s, f).lastUsed >= s.cfg.idleTtl
  }

  /** The farm's actor was only just made, and finds no room in the ready channel. */
  predicate UnmadeBy(s: State, step: Step, f: int)
    requires |s.shards| > 0
  {
    && step.TryDispatch? && step.shard == Home(s, f) && BeingMade(s, f) && |s.ready| >= s.cfg.readyCap
  }

  predicate BeingMade(s: State, f: int)
    requires |s.shards| > 0
  {
    var sched := s.shards[Home(s, f)].scheduler; sched.Dispatching? && sched.created && sched.task.farmId == f
  }

  /** The steps that set a farm's clock: making its actor, dispatching to it, and completing for it. */
  predicate Uses(s: State, step: Step, f: int)
    requires |s.shards| > 0
  {
    var i := Home(s, f);
    match step
    case Accept(shard, _) =>
      shard == i && CanAccept(s, i) && s.shards[i].inbox[0].farmId == f && !HasActor(s, f) && s.activeActors < s.cfg.maxActors
    case TryDispatch(shard, _) => shard == i && Dispatches(s, i) && s.shards[i].scheduler.task.farmId == f && |s.ready| < s.cfg.readyCap
    case Complete(shard, _) => shard == i && CanComplete(s, i) && s.shards[i].completed[0].item.task.farmId == f
    case _ => false
  }

  /** The clock reading of a step that uses a farm. */
  function ClockOf(step: Step): Time { if step.Accept? || step.TryDispatch? || step.Complete? then step.now else 0 }

  /** The same actor, whatever it is doing. */
  predicate SameActor(s: State, v: State, f: int)
    requires |s.shards| > 0 && |v.shards| > 0 && HasActor(s, f)
  {
    HasActor(v, f) && ActorOf(v, f).id == ActorOf(s, f).id
  }

  /** A farm loses its actor by nothing but an eviction that finds it idle too long, or by being unmade at once. */
  lemma ActorsLeaveExactly(s: State, step: Step, f: int)
    requires Core(s) && HasActor(s, f)
    ensures |Next(s, step).shards| == |s.shards| && Next(s, step).cfg == s.cfg
    ensures HasActor(Next(s, step), f) <==> !EvictedBy(s, step, f) && !UnmadeBy(s, step, f)
    ensures HasActor(Next(s, step), f) ==> SameActor(s, Next(s, step), f)
  {
    StepKeepsFrame(s, step);
    match step
    case Accept(i, now) => AcceptKeepsActors(s, i, now, f);
    case TryDispatch(i, now) => TryDispatchKeepsActors(s, i, now, f);
    case Complete(i, now) => CompleteKeepsActors(s, i, now, f);
    case EvictIdle(i, now) =>
      if i < |s.shards| && s.shards[i].scheduler.Idle? { IdleActorsLeaveExactly(s, i, now); }
    case _ => OthersKeepActors(s, step, f);
  }

  lemma AcceptKeepsActors(s: State, i: nat, now: Time, f: int)
    requires Core(s) && HasActor(s, f)
    ensures |AfterAccept(s, i, now).shards| == |s.shards| && AfterAccept(s, i, now).cfg == s.cfg
    ensures SameActor(s, AfterAccept(s, i, now), f)
    ensures ActorOf(AfterAccept(s, i, now), f).lastUsed == ActorOf(s, f).lastUsed
  {
  }

  lemma TryDispatchKeepsActors(s: State, i: nat, now: Time, f: int)
    requires Core(s) && HasActor(s, f)
    ensures var v := AfterTryDispatch(s, i, now);
      && |v.shards| == |s.shards| && v.cfg == s.cfg
      && (HasActor(v, f) <==> !UnmadeBy(s, TryDispatch(i, now), f))
      && (HasActor(v, f) ==> SameActor(s, v, f))
      && (HasActor(v, f) ==> ActorOf(v, f).lastUsed == if Uses(s, TryDispatch(i, now), f) then now else ActorOf(s, f).lastUsed)
  {
    assert ShardShape(s, Home(s, f));
  }

  lemma CompleteKeepsActors(s: State, i: nat, now: Time, f: int)
    requires Core(s) && HasActor(s, f)
    ensures var v := AfterComplete(s, i, now);
      && |v.shards| == |s.shards| && v.cfg == s.cfg && SameActor(s, v, f)
      && ActorOf(v, f).lastUsed == if Uses(s, Complete(i, now), f) then now else ActorOf(s, f).lastUsed
  {
    if CanComplete(s, i) {
      CompletionIsTheOnlyItem(s, i);
      assert ShardShape(s, i);
      assert ReportsSound(s, i);
    }
  }

  lemma OthersKeepActors(s: State, step: Step, f: int)
    requires Core(s) && HasActor(s, f) && !step.Accept? && !step.TryDispatch? && !step.Complete? && !step.EvictIdle?
    ensures |Next(s, step).shards| == |s.shards| && Next(s, step).cfg == s.cfg
    ensures SameActor(s, Next(s, step), f) && ActorOf(Next(s, step), f).lastUsed == ActorOf(s, f).lastUsed
  {
    if step.HandOff? { HandOffKeepsActors(s, step.shard, f); } else { RestKeepsActors(s, step, f); }
  }

  lemma HandOffKeepsActors(s: State, i: nat, f: int)
    requires Core(s) && HasActor(s, f)
    ensures var v := AfterHandOff(s, i);
      && |v.shards| == |s.shards| && v.cfg == s.cfg && SameActor(s, v, f)
      && ActorOf(v, f).lastUsed == ActorOf(s, f).lastUsed
  {
  }

  lemma RestKeepsActors(s: State, step: Step, f: int)
    requires |s.shards| > 0 && HasActor(s, f)
    requires !step.Accept? && !step.TryDispatch? && !step.Complete? && !step.EvictIdle? && !step.HandOff?
    ensures |Next(s, step).shards| == |s.shards| && Next(s, step).cfg == s.cfg
    ensures HasActor(Next(s, step), f) && ActorOf(Next(s, step), f) == ActorOf(s, f)
  {
  }

  /** A farm's clock moves with the steps that use it, to their reading, and stands still otherwise. */
  lemma ClocksMoveExactly(s: State, step: Step, f: int)
    requires Core(s) && |Next(s, step).shards| == |s.shards| && Next(s, step).cfg == s.cfg && HasActor(Next(s, step), f)
    ensures if Uses(s, step, f) then ActorOf(Next(s, step), f).lastUsed == ClockOf(step)
            else HasActor(s, f) && ActorOf(Next(s, step), f).lastUsed == ActorOf(s, f).lastUsed
  {
    if HasActor(s, f) {
      match step
      case Accept(i, now) => AcceptKeepsActors(s, i, now, f);
      case TryDispatch(i, now) => TryDispatchKeepsActors(s, i, now, f);
      case Complete(i, now) => CompleteKeepsActors(s, i, now, f);
      case EvictIdle(i, now) => EvictionKeepsClocks(s, i, now, f);
      case _ => OthersKeepActors(s, step, f);
    } else if !step.Accept? {
      NothingElseMakesActors(s, step, f);
    }
  }

  lemma EvictionKeepsClocks(s: State, i: nat, now: Time, f: int)
    requires |s.shards| > 0 && HasActor(s, f)
    ensures var v := AfterEvictIdle(s, i, now);
      && |v.shards| == |s.shards| && v.cfg == s.cfg
      && (HasActor(v, f) ==> ActorOf(v, f) == ActorOf(s, f))
  {
    if i < |s.shards| && s.shards[i].scheduler.Idle? { IdleActorsLeaveExactly(s, i, now); }
  }

  lemma NothingElseMakesActors(s: State, step: Step, f: int)
    requires Core(s) && !HasActor(s, f) && !step.Accept?
    ensures |Next(s, step).shards| == |s.shards| && Next(s, step).cfg == s.cfg && !HasActor(Next(s, step), f)
  {
    StepKeepsFrame(s, step);
    match step
    case TryDispatch(i, now) => TryDispatchMakesNoActors(s, i, now, f);
    case Complete(i, now) =>
      if CanComplete(s, i) {
        CompletionIsTheOnlyItem(s, i);
        assert ReportsSound(s, i);
      }
    case EvictIdle(i, now) =>
      if i < |s.shards| && s.shards[i].scheduler.Idle? { IdleActorsLeaveExactly(s, i, now); }
    case HandOff(i) => HandOffMakesNoActors(s, i, f);
    case _ => OthersMakeNoActors(s, step, f);
  }

  lemma TryDispatchMakesNoActors(s: State, i: nat, now: Time, f: int)
    requires |s.shards| > 0 && !HasActor(s, f)
    ensures var v := AfterTryDispatch(s, i, now); |v.shards| == |s.shards| && v.cfg == s.cfg && !HasActor(v, f)
  {
  }

  lemma HandOffMakesNoActors(s: State, i: nat, f: int)
    requires |s.shards| > 0 && !HasActor(s, f)
    ensures var v := AfterHandOff(s, i); |v.shards| == |s.shards| && v.cfg == s.cfg && !HasActor(v, f)
  {
  }

  lemma OthersMakeNoActors(s: State, step: Step, f: int)
    requires Core(s) && !HasActor(s, f)
    requires !step.Accept? && !step.TryDispatch? && !step.Complete? && !step.EvictIdle? && !step.HandOff?
    ensures |Next(s, step).shards| == |s.shards| && Next(s, step).cfg == s.cfg && !HasActor(Next(s, step), f)
  {
  }

  // ---- Over runs ----

  /** The clock reading of the last step of a run that used the farm. */
  ghost function LastUse(cfg: Config, n: nat, steps: seq<Step>, f: int): Option<Time> {
    if steps == [] then None
    else
      var s, step := Run(cfg, n, steps[..|steps| - 1]), steps[|steps| - 1];
      if |s.shards| > 0 && Uses(s, step, f) then Some(ClockOf(step)) else LastUse(cfg, n, steps[..|steps| - 1], f)
  }

  /** The clock of a farm's actor is the reading of the last step that used it. */
  lemma {:induction false} ClockIsTheLastUse(cfg: Config, n: nat, steps: seq<Step>, f: int)
    requires WellConfigured(cfg, n) && |Run(cfg, n, steps).shards| == n && HasActor(Run(cfg, n, steps), f)
    ensures LastUse(cfg, n, steps, f) == Some(ActorOf(Run(cfg, n, steps), f).lastUsed)
  {
    assert steps != [];
    var front, last := steps[..|steps| - 1], steps[|steps| - 1];
    RunIsGood(cfg, n, front);
    RunIsGood(cfg, n, steps);
    ClocksMoveExactly(Run(cfg, n, front), last, f);
    if !Uses(Run(cfg, n, front), last, f) { ClockIsTheLastUse(cfg, n, front, f); }
  }

  /**
   * In every run a farm loses its actor exactly when its own scheduler evicts while the actor rests and the
   * last step that used it read a clock at least idleTtl ago, or when a dispatch finds no room for an actor
   * just made.
   */
  lemma FarmsAreEvictedExactly(cfg: Config, n: nat, steps: seq<Step>, step: Step, f: int)
    requires WellConfigured(cfg, n) && |Run(cfg, n, steps).shards| == n && HasActor(Run(cfg, n, steps), f)
    ensures LastUse(cfg, n, steps, f).Some?
    ensures var s, v := Run(cfg, n, steps), Next(Run(cfg, n, steps), step);
      && |v.shards| == n
      && (!HasActor(v, f) <==>
            || (&& EvictsFor(cfg, n, step, f) && s.shards[step.shard].scheduler.Idle?
                && Resting(ActorOf(s, f)) && step.now - LastUse(cfg, n, steps, f).value >= cfg.idleTtl)
            || UnmadeBy(s, step, f))
  {
    RunIsGood(cfg, n, steps);
    ClockIsTheLastUse(cfg, n, steps, f);
    ActorsLeaveExactly(Run(cfg, n, steps), step, f);
  }

  // ---- Staying hot ----

  predicate EvictsFor(cfg: Config, n: nat, step: Step, f: int)
    requires n > 0
  {
    step.EvictIdle? && step.shard == cfg.hash(f) % n
  }

  /** Every eviction by the farm's scheduler after step m comes less than idleTtl after the farm's last use. */
  ghost predicate Timely(cfg: Config, n: nat, steps: seq<Step>, m: nat, f: int)
    requires n > 0
  {
    forall k: nat :: m < k < |steps| && EvictsFor(cfg, n, steps[k], f) ==>
      var used := LastUse(cfg, n, steps[..k], f); used.Some? ==> steps[k].now - used.value < cfg.idleTtl
  }

  /** Step m of the run is a worker's taking of a work item of the farm. */
  ghost predicate ExecutesAt(cfg: Config, n: nat, steps: seq<Step>, m: nat, f: int) {
    && m < |steps| && steps[m].Take?
    && (var s := Run(cfg, n, steps[..m]); CanTake(s, steps[m].worker) && s.ready[0].task.farmId == f)
  }

  /** Actor id of the farm is there, and not being made; every execution from index j on was its. */
  ghost predicate Warm(s: State, f: int, id: nat, j: nat)
    requires |s.shards| > 0
  {
    && HasActor(s, f) && ActorOf(s, f).id == id && !BeingMade(s, f)
    && forall k :: j <= k < |LogOf(s, f)| ==> LogOf(s, f)[k].actorId == id
  }

  lemma TakingWarms(s: State, k: nat, f: int)
    requires Core(s) && CanTake(s, k) && s.ready[0].task.farmId == f
    ensures var v := AfterTake(s, k);
      && |v.shards| == |s.shards| && v.cfg == s.cfg && HasActor(v, f)
      && |LogOf(v, f)| == |LogOf(s, f)| + 1
      && Warm(v, f, ActorOf(v, f).id, |LogOf(s, f)|)
  {
    assert ItemSound(s, s.ready[0]);
    assert ShardShape(s, s.ready[0].shard);
  }

  lemma StepKeepsWarm(s: State, step: Step, f: int, id: nat, j: nat)
    requires Core(s) && Warm(s, f, id, j) && !EvictedBy(s, step, f)
    ensures |Next(s, step).shards| == |s.shards| && Next(s, step).cfg == s.cfg && Warm(Next(s, step), f, id, j)
    ensures |LogOf(Next(s, step), f)| >= |LogOf(s, f)|
  {
    ActorsLeaveExactly(s, step, f);
    NotMadeAgain(s, step, f);
    if step.Take? {
      TakeLogsThisActor(s, step.worker, f);
    } else if step.Finish? {
      FinishKeepsActorIds(s, step.worker, step.left, step.result, f);
    } else {
      OthersLogNothing(s, step, f);
    }
  }

  lemma NotMadeAgain(s: State, step: Step, f: int)
    requires Core(s) && HasActor(s, f) && !BeingMade(s, f)
    ensures |Next(s, step).shards| == |s.shards| && Next(s, step).cfg == s.cfg && !BeingMade(Next(s, step), f)
  {
    StepKeepsFrame(s, step);
    if SchedulerStep(step) { SchedulersMakeOnce(s, step, f); }
  }

  lemma SchedulersMakeOnce(s: State, step: Step, f: int)
    requires SchedulerStep(step) && |s.shards| > 0 && HasActor(s, f) && !BeingMade(s, f)
    requires |Next(s, step).shards| == |s.shards| && Next(s, step).cfg == s.cfg
    ensures !BeingMade(Next(s, step), f)
  {
    match step
    case Accept(i, now) => AcceptMakesOnce(s, i, now, f);
    case TryDispatch(i, now) =>
    case Complete(i, now) => CompleteMakesNothing(s, i, now, f);
    case HandOff(i) =>
    case DropHandOff(i) =>
    case EvictIdle(i, now) =>
    case FailAll(i) =>
  }

  lemma AcceptMakesOnce(s: State, i: nat, now: Time, f: int)
    requires |s.shards| > 0 && HasActor(s, f) && !BeingMade(s, f)
    ensures var v := AfterAccept(s, i, now); |v.shards| == |s.shards| && v.cfg == s.cfg && !BeingMade(v, f)
  {
  }

  lemma CompleteMakesNothing(s: State, i: nat, now: Time, f: int)
    requires |s.shards| > 0 && !BeingMade(s, f)
    ensures var v := AfterComplete(s, i, now); |v.shards| == |s.shards| && v.cfg == s.cfg && !BeingMade(v, f)
  {
  }

  lemma TakeLogsThisActor(s: State, k: nat, f: int)
    requires Core(s) && HasActor(s, f)
    ensures var log, log' := LogOf(s, f), LogOf(AfterTake(s, k), f);
      log' == log || (|log'| == |log| + 1 && log == log'[..|log|] && log'[|log|].actorId == ActorOf(s, f).id)
  {
    if CanTake(s, k) {
      assert ItemSound(s, s.ready[0]);
      assert ShardShape(s, s.ready[0].shard);
    }
  }

  lemma FinishKeepsActorIds(s: State, k: nat, left: Option<Hot>, result: int, f: int)
    ensures var log, log' := LogOf(s, f), LogOf(AfterFinish(s, k, left, result), f);
      |log'| == |log| && forall m :: 0 <= m < |log| ==> log'[m].actorId == log[m].actorId
  {
  }

  lemma OthersLogNothing(s: State, step: Step, f: int)
    requires !step.Take? && !step.Finish?
    ensures LogOf(Next(s, step), f) == LogOf(s, f)
  {
  }

  /** Execution k is the same actor's as execution j, and starts from what its predecessor left. */
  predicate HotAt(log: seq<Execution>, j: nat, k: nat)
    requires j < k < |log|
  {
    log[k].actorId == log[j].actorId && log[k - 1].done.Some? && log[k].seen == log[k - 1].done.value.0
  }

  ghost predicate HotFrom(log: seq<Execution>, j: nat) { forall k :: j < k < |log| ==> HotAt(log, j, k) }

  lemma OneActorIsHot(log: seq<Execution>, j: nat, id: nat)
    requires Sequential(log) && forall k :: j <= k < |log| ==> log[k].actorId == id
    ensures HotFrom(log, j)
  {
    forall k | j < k < |log| ensures HotAt(log, j, k) {
      assert Link(log, k - 1) && Link(log, k);
      assert log[..k][k - 1] == log[k - 1];
    }
  }

  /**
   * From an execution of a farm on, as long as its scheduler never evicts idleTtl or more after the farm's
   * last use, the farm keeps its actor, and every later execution starts from the snapshot the one before
   * it left: the farm is loaded cold no more.
   */
  lemma WarmFarmsStayHot(cfg: Config, n: nat, steps: seq<Step>, m: nat, f: int)
    requires WellConfigured(cfg, n) && ExecutesAt(cfg, n, steps, m, f) && Timely(cfg, n, steps, m, f)
    ensures var j := |LogOf(Run(cfg, n, steps[..m]), f)|; var s := Run(cfg, n, steps);
      |s.shards| == n && HasActor(s, f) && j < |LogOf(s, f)| && HotFrom(LogOf(s, f), j)
  {
    var j := |LogOf(Run(cfg, n, steps[..m]), f)|;
    var id := StaysWarm(cfg, n, steps, m, f, j);
    RunIsGood(cfg, n, steps);
    assert FarmSound(Run(cfg, n, steps), f);
    OneActorIsHot(LogOf(Run(cfg, n, steps), f), j, id);
  }

  lemma TimelyBefore(cfg: Config, n: nat, steps: seq<Step>, m: nat, f: int)
    requires n > 0 && steps != [] && Timely(cfg, n, steps, m, f)
    ensures Timely(cfg, n, steps[..|steps| - 1], m, f)
  {
    var front := steps[..|steps| - 1];
    forall k: nat | m < k < |front| && EvictsFor(cfg, n, front[k], f)
      ensures var used := LastUse(cfg, n, front[..k], f); used.Some? ==> front[k].now - used.value < cfg.idleTtl
    {
      assert front[..k] == steps[..k] && steps[k] == front[k];
    }
  }

  lemma ExecutedBefore(cfg: Config, n: nat, steps: seq<Step>, m: nat, f: int)
    requires m + 1 < |steps| && ExecutesAt(cfg, n, steps, m, f)
    ensures ExecutesAt(cfg, n, steps[..|steps| - 1], m, f) && steps[..|steps| - 1][..m] == steps[..m]
  {
    assert steps[..|steps| - 1][..m] == steps[..m];
  }

  ghost predicate WarmRun(s: State, n: nat, f: int, id: nat, j: nat) { n > 0 && |s.shards| == n && j < |LogOf(s, f)| && Warm(s, f, id, j) }

  lemma {:induction false} StaysWarm(cfg: Config, n: nat, steps: seq<Step>, m: nat, f: int, j: nat) returns (id: nat)
    requires WellConfigured(cfg, n) && ExecutesAt(cfg, n, steps, m, f) && Timely(cfg, n, steps, m, f)
    requires j == |LogOf(Run(cfg, n, steps[..m]), f)|
    ensures WarmRun(Run(cfg, n, steps), n, f, id, j)
  {
    var front, last := steps[..|steps| - 1], steps[|steps| - 1];
    RunIsGood(cfg, n, front);
    if m == |front| {
      TakingWarms(Run(cfg, n, front), last.worker, f);
      id := ActorOf(Run(cfg, n, steps), f).id;
    } else {
      TimelyBefore(cfg, n, steps, m, f);
      ExecutedBefore(cfg, n, steps, m, f);
      id := StaysWarm(cfg, n, front, m, f, j);
      ClockIsTheLastUse(cfg, n, front, f);
      LastStepKeepsWarm(cfg, n, steps, m, f, id, j);
    }
  }

  lemma LastStepKeepsWarm(cfg: Config, n: nat, steps: seq<Step>, m: nat, f: int, id: nat, j: nat)
    requires WellConfigured(cfg, n) && m + 1 < |steps| && Timely(cfg, n, steps, m, f)
    requires var s := Run(cfg, n, steps[..|steps| - 1]);
      Core(s) && s.cfg == cfg && WarmRun(s, n, f, id, j) && LastUse(cfg, n, steps[..|steps| - 1], f) == Some(ActorOf(s, f).lastUsed)
    ensures WarmRun(Run(cfg, n, steps), n, f, id, j)
  {
    var s, last := Run(cfg, n, steps[..|steps| - 1]), steps[|steps| - 1];
    assert EvictsFor(cfg, n, steps[|steps| - 1], f) ==> last.now - ActorOf(s, f).lastUsed < cfg.idleTtl;
    StepKeepsWarm(s, last, f, id, j);
  }
}
