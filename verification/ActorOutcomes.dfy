/** Every task taken from an inbox is admitted at most once and answered, with the right outcome. */
module ActorOutcomes {
  import opened Prelude
  import opened ActorMachine
  import opened ActorInvariants
  import opened ActorOrder

  predicate Admitted(s: State, t: Task) { t in Lookup(s.hist.admitted, t.farmId) }

  /** A worker ran t to the end with this result. */
  ghost predicate ExecutedAs(log: seq<Execution>, t: Task, result: int) {
    exists k :: 0 <= k < |log| && log[k].task == t && log[k].done.Some? && log[k].done.value.1 == result
  }

  ghost predicate OutcomeRight(s: State, t: Task)
    requires t in s.outcomes
  {
    && t in s.hist.taken
    && match s.outcomes[t]
       case Executed(r) => ExecutedAs(LogOf(s, t.farmId), t, r)
       case Backpressure => !Admitted(s, t)
       case Cancelled => !s.live
  }

  ghost predicate OutcomesRight(s: State) { forall t :: t in s.outcomes ==> OutcomeRight(s, t) }

  predicate InboxFresh(s: State, i: nat)
    requires i < |s.shards|
  {
    var inbox := s.shards[i].inbox;
    && (forall k :: 0 <= k < |inbox| ==> inbox[k] !in s.hist.taken)
    && (forall j, k :: 0 <= j < k < |inbox| ==> inbox[j] != inbox[k])
  }

  predicate SchedulerOwns(s: State, i: nat)
    requires i < |s.shards|
  {
    match s.shards[i].scheduler
    case Dispatching(t, _) => t in s.hist.taken && !Admitted(s, t) && t !in s.outcomes
    case Holding(t) => Admitted(s, t)
    case _ => true
  }

  predicate ActorsOwn(s: State, i: nat)
    requires i < |s.shards|
  {
    forall f :: f in s.shards[i].actors ==> forall t :: t in OwedBy(s.shards[i].actors[f]) ==> Admitted(s, t)
  }

  predicate AdmittedOnce(s: State, f: int) {
    var admitted := Lookup(s.hist.admitted, f);
    && (forall k :: 0 <= k < |admitted| ==> admitted[k] in s.hist.taken && admitted[k].farmId == f)
    && (forall j, k :: 0 <= j < k < |admitted| ==> admitted[j] != admitted[k])
  }

  ghost predicate Owned(s: State) {
    && (forall i :: 0 <= i < |s.shards| ==> InboxFresh(s, i) && SchedulerOwns(s, i) && ActorsOwn(s, i))
    && (forall f {:trigger AdmittedOnce(s, f)} :: AdmittedOnce(s, f))
  }

  /** t has been taken and somebody still has to answer it. */
  predicate Pending(s: State, t: Task)
    requires |s.shards| > 0
  {
    var shard := s.shards[Home(s, t.farmId)];
    && !shard.scheduler.Exited?
    && (|| (shard.scheduler.Dispatching? && shard.scheduler.task == t)
        || (shard.scheduler.Holding? && shard.scheduler.task == t)
        || (t.farmId in shard.actors && t in OwedBy(shard.actors[t.farmId])))
  }

  ghost predicate Answered(s: State)
    requires |s.shards| > 0
  {
    forall t :: t in s.hist.taken ==> t in s.outcomes || Pending(s, t)
  }

  ghost predicate Accounted(s: State)
    requires |s.shards| > 0
  {
    Owned(s) && OutcomesRight(s) && Answered(s)
  }

  // ---- Steps that admit nobody ----

  ghost predicate LogGrows(log: seq<Execution>, later: seq<Execution>) {
    forall k :: 0 <= k < |log| ==> k < |later| && later[k].task == log[k].task && (log[k].done.Some? ==> later[k].done == log[k].done)
  }

  lemma ExecutedStays(log: seq<Execution>, later: seq<Execution>, t: Task, r: int)
    requires LogGrows(log, later) && ExecutedAs(log, t, r)
    ensures ExecutedAs(later, t, r)
  {
    var k :| 0 <= k < |log| && log[k].task == t && log[k].done.Some? && log[k].done.value.1 == r;
    assert later[k].task == t;
  }

  /** Nothing is taken or admitted, and at most one new answer goes out, to an admitted task. */
  ghost predicate Settles(s: State, v: State) {
    && v.cfg == s.cfg && |v.shards| == |s.shards|
    && v.hist.taken == s.hist.taken && v.hist.admitted == s.hist.admitted
    && (forall f :: LogGrows(LogOf(s, f), LogOf(v, f)))
    && (forall t :: t in s.outcomes ==> t in v.outcomes && v.outcomes[t] == s.outcomes[t])
    && (forall t :: t in v.outcomes && t !in s.outcomes ==> Admitted(s, t) && OutcomeRight(v, t))
    && (v.live ==> s.live)
  }

  lemma SettlesKeepsOutcomes(s: State, v: State)
    requires OutcomesRight(s) && Settles(s, v)
    ensures OutcomesRight(v)
  {
    forall t | t in v.outcomes ensures OutcomeRight(v, t) {
      if t in s.outcomes {
        assert OutcomeRight(s, t);
        if s.outcomes[t].Executed? { ExecutedStays(LogOf(s, t.farmId), LogOf(v, t.farmId), t, s.outcomes[t].result); }
      }
    }
  }

  lemma SettlesKeepsOwned(s: State, v: State, i: nat)
    requires Shape(s) && Owned(s) && Settles(s, v) && OnlyShards(s, v, i) && i < |s.shards|
    requires v.shards[i].inbox == s.shards[i].inbox
    requires v.shards[i].scheduler.Dispatching? ==> v.shards[i].scheduler == s.shards[i].scheduler
    requires v.shards[i].scheduler.Holding? ==> Admitted(s, v.shards[i].scheduler.task)
    requires forall f :: f in v.shards[i].actors ==> forall t :: t in OwedBy(v.shards[i].actors[f]) ==> Admitted(s, t)
    ensures Owned(v)
  {
    forall j | 0 <= j < |v.shards| ensures InboxFresh(v, j) && SchedulerOwns(v, j) && ActorsOwn(v, j) {
      assert InboxFresh(s, j) && SchedulerOwns(s, j) && ActorsOwn(s, j);
    }
    forall f ensures AdmittedOnce(v, f) { assert AdmittedOnce(s, f); }
  }

  predicate OnlyShards(s: State, v: State, i: nat) {
    |v.shards| == |s.shards| && forall j :: 0 <= j < |s.shards| && j != i ==> v.shards[j] == s.shards[j]
  }

  lemma CompleteKeepsAccounted(s: State, i: nat, now: Time)
    requires Core(s) && Ordered(s) && Accounted(s)
    ensures Accounted(AfterComplete(s, i, now))
  {
    var v := AfterComplete(s, i, now);
    if CanComplete(s, i) {
      CompleteCompletes(s, i, now);
      CompleteSettles(s, v, i);
      SettlesKeepsOutcomes(s, v);
      assert ActorsOwn(s, i);
      CompleteOwes(s, v, i);
      SettlesKeepsOwned(s, v, i);
      CompleteKeepsAnswered(s, v, i);
    }
  }

  lemma CompleteSettles(s: State, v: State, i: nat)
    requires Core(s) && Ordered(s) && Accounted(s) && Completes(s, v, i)
    ensures Settles(s, v)
  {
    CompletionIsTheOnlyItem(s, i);
    var c := s.shards[i].completed[0];
    var t := c.item.task;
    assert ActorsOwn(s, i) && ReportsFit(s, i) && CompletionFits(s, c);
    assert t in OwedBy(s.shards[i].actors[t.farmId]);
    assert Admitted(s, t) && AdmittedOnce(s, t.farmId);
    var log := LogOf(s, t.farmId);
    assert log[|log| - 1].task == t && log[|log| - 1].done == Some((c.left, c.result));
    assert ExecutedAs(log, t, c.result);
  }

  lemma CompleteOwes(s: State, v: State, i: nat)
    requires Completes(s, v, i)
    ensures var f := s.shards[i].completed[0].item.task.farmId; var shard := v.shards[i];
      && (forall g :: g in shard.actors ==> g in s.shards[i].actors && OwedBy(shard.actors[g]) <= OwedBy(s.shards[i].actors[g]))
      && (shard.scheduler.Holding? ==> shard.scheduler.task in OwedBy(s.shards[i].actors[f]))
  {
  }

  lemma CompleteKeepsAnswered(s: State, v: State, i: nat)
    requires Core(s) && Answered(s) && Completes(s, v, i)
    ensures Answered(v)
  {
    CompletionIsTheOnlyItem(s, i);
    var c := s.shards[i].completed[0];
    var a := s.shards[i].actors[c.item.task.farmId];
    forall t | t in v.hist.taken ensures t in v.outcomes || Pending(v, t) {
      assert t in s.outcomes || Pending(s, t);
      assert Home(v, t.farmId) == Home(s, t.farmId);
      if t !in v.outcomes && t.farmId == c.item.task.farmId {
        assert t in a.queue;
        var k :| 0 <= k < |a.queue| && a.queue[k] == t;
        assert k > 0 ==> a.queue[1..][k - 1] == t;
      }
    }
  }

  lemma HandOffKeepsAccounted(s: State, i: nat)
    requires Core(s) && Accounted(s)
    ensures Accounted(AfterHandOff(s, i))
  {
    var v := AfterHandOff(s, i);
    if Hands(s, i) && |s.ready| < s.cfg.readyCap {
      assert SchedulerOwns(s, i) && ActorsOwn(s, i) && ShardShape(s, i);
      SettlesKeepsOutcomes(s, v);
      SettlesKeepsOwned(s, v, i);
      forall t | t in v.hist.taken ensures t in v.outcomes || Pending(v, t) {
        assert t in s.outcomes || Pending(s, t);
        assert Home(v, t.farmId) == Home(s, t.farmId);
      }
    }
  }

  lemma DropHandOffKeepsAccounted(s: State, i: nat)
    requires Core(s) && Accounted(s)
    ensures Accounted(AfterDropHandOff(s, i))
  {
    var v := AfterDropHandOff(s, i);
    if !s.live && Hands(s, i) {
      var t := s.shards[i].scheduler.task;
      assert SchedulerOwns(s, i) && ActorsOwn(s, i) && AdmittedOnce(s, t.farmId);
      SettlesKeepsOutcomes(s, v);
      SettlesKeepsOwned(s, v, i);
      forall u | u in v.hist.taken ensures u in v.outcomes || Pending(v, u) {
        assert u in s.outcomes || Pending(s, u);
        assert Home(v, u.farmId) == Home(s, u.farmId);
      }
    }
  }

  lemma EvictIdleKeepsAccounted(s: State, i: nat, now: Time)
    requires Core(s) && Accounted(s)
    ensures Accounted(AfterEvictIdle(s, i, now))
  {
    var v := AfterEvictIdle(s, i, now);
    if i < |s.shards| && s.shards[i].scheduler.Idle? {
      assert ShardShape(s, i) && ActorsOwn(s, i);
      SettlesKeepsOutcomes(s, v);
      SettlesKeepsOwned(s, v, i);
      forall t | t in v.hist.taken ensures t in v.outcomes || Pending(v, t) {
        assert t in s.outcomes || Pending(s, t);
        assert Home(v, t.farmId) == Home(s, t.farmId);
      }
    }
  }

  /** Steps of workers: shards keep everything but completions. */
  lemma WorkerKeepsAccounted(s: State, v: State, i: nat)
    requires Shape(s) && Accounted(s) && Settles(s, v) && OnlyShards(s, v, i) && i < |s.shards|
    requires v.shards[i] == s.shards[i].(completed := v.shards[i].completed)
    ensures Accounted(v)
  {
    assert SchedulerOwns(s, i) && ActorsOwn(s, i);
    SettlesKeepsOutcomes(s, v);
    SettlesKeepsOwned(s, v, i);
    forall t | t in v.hist.taken ensures t in v.outcomes || Pending(v, t) {
      assert t in s.outcomes || Pending(s, t);
      assert Home(v, t.farmId) == Home(s, t.farmId);
    }
  }

  lemma FinishKeepsAccounted(s: State, k: nat, left: Option<Hot>, result: int)
    requires Core(s) && Ordered(s) && Accounted(s)
    ensures Accounted(AfterFinish(s, k, left, result))
  {
    if CanFinish(s, k) {
      assert WorkerFits(s, s.workers[k]);
      WorkerKeepsAccounted(s, AfterFinish(s, k, left, result), 0);
    }
  }

  lemma AbandonKeepsAccounted(s: State, k: nat)
    requires Core(s) && Accounted(s)
    ensures Accounted(AfterAbandon(s, k))
  {
    if !s.live && k < |s.workers| && s.workers[k].Reporting? {
      var x := s.workers[k].completion.item;
      assert WorkerSound(s, s.workers[k]);
      assert ActorsOwn(s, x.shard) && x.task in OwedBy(s.shards[x.shard].actors[x.task.farmId]);
      assert AdmittedOnce(s, x.task.farmId);
      WorkerKeepsAccounted(s, AfterAbandon(s, k), 0);
    }
  }

  lemma TakeKeepsAccounted(s: State, k: nat)
    requires Core(s) && Accounted(s)
    ensures Accounted(AfterTake(s, k))
  {
    WorkerKeepsAccounted(s, AfterTake(s, k), 0);
  }

  lemma ReportKeepsAccounted(s: State, k: nat)
    requires Core(s) && Accounted(s)
    ensures Accounted(AfterReport(s, k))
  {
    if CanReport(s, k) {
      WorkerKeepsAccounted(s, AfterReport(s, k), s.workers[k].completion.item.shard);
    }
  }

  lemma StopWorkerKeepsAccounted(s: State, k: nat)
    requires Core(s) && Accounted(s)
    ensures Accounted(AfterStopWorker(s, k))
  {
    WorkerKeepsAccounted(s, AfterStopWorker(s, k), 0);
  }

  // ---- Steps that take or admit ----

  lemma SubmitKeepsAccounted(s: State, t: Task)
    requires Core(s) && Accounted(s)
    ensures Accounted(AfterSubmit(s, t))
  {
    var v := AfterSubmit(s, t);
    if CanSubmit(s, t) {
      forall j | 0 <= j < |v.shards| ensures InboxFresh(v, j) && SchedulerOwns(v, j) && ActorsOwn(v, j) {
        assert InboxFresh(s, j) && SchedulerOwns(s, j) && ActorsOwn(s, j);
      }
      forall f ensures AdmittedOnce(v, f) { assert AdmittedOnce(s, f); }
      forall u | u in v.outcomes ensures OutcomeRight(v, u) { assert OutcomeRight(s, u); }
      forall u | u in v.hist.taken ensures u in v.outcomes || Pending(v, u) {
        assert u in s.outcomes || Pending(s, u);
        assert Home(v, u.farmId) == Home(s, u.farmId);
      }
    }
  }

  /** The shape of a step that takes task t, or decides about it: at most t is added anywhere. */
  ghost predicate Decides(s: State, v: State, i: nat, t: Task) {
    && OnlyShards(s, v, i) && i < |s.shards| && v.cfg == s.cfg && v.live == s.live
    && v.hist.executed == s.hist.executed && v.hist.taken == s.hist.taken + {t}
    && (v.hist.admitted == s.hist.admitted || v.hist.admitted == Admit(s.hist, t).admitted)
    && (v.outcomes == s.outcomes || (v.outcomes == Deliver(s.outcomes, t, Backpressure) && v.hist.admitted == s.hist.admitted))
  }

  lemma DecidesKeepsOthers(s: State, v: State, i: nat, t: Task)
    requires Shape(s) && Accounted(s) && Decides(s, v, i, t) && Home(s, t.farmId) == i
    requires t !in s.outcomes && !Admitted(s, t)
    ensures OutcomesRight(v)
    ensures forall j :: 0 <= j < |v.shards| && j != i ==> InboxFresh(v, j) && SchedulerOwns(v, j) && ActorsOwn(v, j)
    ensures forall f :: AdmittedOnce(v, f)
    ensures forall u :: Admitted(s, u) ==> Admitted(v, u)
    ensures forall u :: Admitted(v, u) ==> Admitted(s, u) || u == t
  {
    forall u | u in v.outcomes ensures OutcomeRight(v, u) {
      if u in s.outcomes { assert OutcomeRight(s, u); }
    }
    forall j | 0 <= j < |v.shards| && j != i ensures InboxFresh(v, j) && SchedulerOwns(v, j) && ActorsOwn(v, j) {
      assert InboxFresh(s, j) && SchedulerOwns(s, j) && ActorsOwn(s, j) && ShardShape(s, j);
    }
    forall f ensures AdmittedOnce(v, f) { assert AdmittedOnce(s, f); }
  }

  lemma TryDispatchKeepsAccounted(s: State, i: nat, now: Time)
    requires Core(s) && Accounted(s)
    ensures Accounted(AfterTryDispatch(s, i, now))
  {
    if Dispatches(s, i) {
      var v := AfterTryDispatch(s, i, now);
      var t := s.shards[i].scheduler.task;
      assert SchedulerOwns(s, i) && ShardShape(s, i);
      assert v.hist.taken == s.hist.taken + {t};
      DecidesKeepsOthers(s, v, i, t);
      assert ActorsOwn(s, i) && InboxFresh(s, i);
      assert InboxFresh(v, i) && SchedulerOwns(v, i);
      TryDispatchOwes(s, i, now);
      TryDispatchAnswers(s, i, now);
    }
  }

  lemma TryDispatchAnswers(s: State, i: nat, now: Time)
    requires Shape(s) && Answered(s) && Dispatches(s, i)
    ensures |AfterTryDispatch(s, i, now).shards| > 0 && Answered(AfterTryDispatch(s, i, now))
  {
    assert ShardShape(s, i);
    var v := AfterTryDispatch(s, i, now);
    forall u | u in v.hist.taken ensures u in v.outcomes || Pending(v, u) {
      assert u in s.outcomes || Pending(s, u);
      assert Home(v, u.farmId) == Home(s, u.farmId);
    }
  }

  lemma TryDispatchOwes(s: State, i: nat, now: Time)
    requires Shape(s) && Dispatches(s, i) && ActorsOwn(s, i)
    ensures ActorsOwn(AfterTryDispatch(s, i, now), i)
  {
    assert ShardShape(s, i);
    var v := AfterTryDispatch(s, i, now);
    var t := s.shards[i].scheduler.task;
    forall f, u | f in v.shards[i].actors && u in OwedBy(v.shards[i].actors[f]) ensures Admitted(v, u) {
      if u != t { assert u in OwedBy(s.shards[i].actors[f]); }
    }
  }

  lemma AcceptKeepsAccounted(s: State, i: nat, now: Time)
    requires Core(s) && Accounted(s)
    ensures Accounted(AfterAccept(s, i, now))
  {
    var v := AfterAccept(s, i, now);
    if CanAccept(s, i) {
      var t := s.shards[i].inbox[0];
      assert InboxFresh(s, i) && SchedulerOwns(s, i) && ActorsOwn(s, i) && ShardShape(s, i) && AdmittedOnce(s, t.farmId);
      assert t in s.outcomes ==> OutcomeRight(s, t);
      AcceptDecides(s, i, now);
      DecidesKeepsOthers(s, v, i, t);
      AcceptKeepsOwnShard(s, v, i, t);
      AcceptKeepsAnswered(s, v, i, t);
    }
  }

  lemma AcceptDecides(s: State, i: nat, now: Time)
    requires Shape(s) && CanAccept(s, i)
    ensures var t := s.shards[i].inbox[0]; var v := AfterAccept(s, i, now);
      Decides(s, v, i, t) && v.shards[i].inbox == s.shards[i].inbox[1..] && Accepts(s, v, i, t)
  {
    var v := AfterAccept(s, i, now);
    var t := s.shards[i].inbox[0];
    var shard := s.shards[i];
    if t.farmId !in shard.actors {
      assert Refused(s, v, i, t) || Prepared(s, v, i, t);
    } else if !shard.actors[t.farmId].running {
      assert Prepared(s, v, i, t);
    } else if |shard.actors[t.farmId].queue| >= s.cfg.farmQueueCap {
      assert Refused(s, v, i, t);
    } else {
      assert Queues(s, v, i, t);
    }
  }

  /** t is answered with backpressure at once. */
  predicate Refused(s: State, v: State, i: nat, t: Task)
    requires i < |s.shards| == |v.shards|
  {
    && v.shards[i].actors == s.shards[i].actors && v.shards[i].scheduler == Idle && v.hist.admitted == s.hist.admitted
    && v.outcomes == Deliver(s.outcomes, t, Backpressure)
  }

  /** t is about to be offered to the ready channel; the actors owe what they owed. */
  predicate Prepared(s: State, v: State, i: nat, t: Task)
    requires i < |s.shards| == |v.shards|
  {
    && v.shards[i].scheduler.Dispatching? && v.shards[i].scheduler.task == t
    && v.outcomes == s.outcomes && v.hist.admitted == s.hist.admitted
    && (forall f :: f in s.shards[i].actors ==> f in v.shards[i].actors && v.shards[i].actors[f] == s.shards[i].actors[f])
    && (forall f :: f in v.shards[i].actors && f !in s.shards[i].actors ==> OwedBy(v.shards[i].actors[f]) == {})
  }

  /** t is admitted at the end of its farm's queue. */
  predicate Queues(s: State, v: State, i: nat, t: Task)
    requires i < |s.shards| == |v.shards|
  {
    && v.shards[i].scheduler == Idle && v.outcomes == s.outcomes && v.hist.admitted == Admit(s.hist, t).admitted
    && t.farmId in s.shards[i].actors && t.farmId in v.shards[i].actors
    && v.shards[i].actors == s.shards[i].actors[t.farmId := v.shards[i].actors[t.farmId]]
    && OwedBy(v.shards[i].actors[t.farmId]) == OwedBy(s.shards[i].actors[t.farmId]) + {t}
  }

  predicate Accepts(s: State, v: State, i: nat, t: Task)
    requires i < |s.shards| == |v.shards|
  {
    Refused(s, v, i, t) || Prepared(s, v, i, t) || Queues(s, v, i, t)
  }

  lemma AcceptKeepsOwnShard(s: State, v: State, i: nat, t: Task)
    requires i < |s.shards| == |v.shards| && Accepts(s, v, i, t) && v.hist.taken == s.hist.taken + {t}
    requires s.shards[i].inbox != [] && t == s.shards[i].inbox[0] && v.shards[i].inbox == s.shards[i].inbox[1..]
    requires InboxFresh(s, i) && ActorsOwn(s, i) && t !in s.outcomes && !Admitted(s, t)
    ensures InboxFresh(v, i) && SchedulerOwns(v, i) && ActorsOwn(v, i)
  {
    var was, after := s.shards[i].actors, v.shards[i].actors;
    forall f, u | f in after && u in OwedBy(after[f]) ensures Admitted(v, u) {
      if f in was && u in OwedBy(was[f]) {
        assert Admitted(s, u);
      }
    }
  }

  lemma AcceptKeepsAnswered(s: State, v: State, i: nat, t: Task)
    requires |s.shards| > 0 && Answered(s) && OnlyShards(s, v, i) && v.cfg == s.cfg && i < |s.shards|
    requires Accepts(s, v, i, t) && v.hist.taken == s.hist.taken + {t} && Home(s, t.farmId) == i && s.shards[i].scheduler.Idle?
    ensures Answered(v)
  {
    forall u | u in v.hist.taken ensures u in v.outcomes || Pending(v, u) {
      assert u == t || u in s.outcomes || Pending(s, u);
      assert Home(v, u.farmId) == Home(s, u.farmId);
      if Queues(s, v, i, t) && u.farmId == t.farmId {
        assert t in OwedBy(v.shards[i].actors[t.farmId]);
      }
    }
  }

  lemma FailAllKeepsAccounted(s: State, i: nat)
    requires Core(s) && Accounted(s)
    ensures Accounted(AfterFailAll(s, i))
  {
    var v := AfterFailAll(s, i);
    if !s.live && i < |s.shards| && s.shards[i].scheduler.Idle? {
      forall j | 0 <= j < |v.shards| ensures InboxFresh(v, j) && SchedulerOwns(v, j) && ActorsOwn(v, j) {
        assert InboxFresh(s, j) && SchedulerOwns(s, j) && ActorsOwn(s, j) && ShardShape(s, j);
        assert ShardShape(s, i) && ActorsOwn(s, i);
      }
      forall f ensures AdmittedOnce(v, f) { assert AdmittedOnce(s, f); }
      assert ActorsOwn(s, i);
      forall u | u in v.outcomes ensures OutcomeRight(v, u) {
        if u in s.outcomes {
          assert OutcomeRight(s, u);
        } else if u !in s.shards[i].inbox {
          var f :| f in s.shards[i].actors && u in OwedBy(s.shards[i].actors[f]);
          assert Admitted(s, u) && AdmittedOnce(s, u.farmId);
        }
      }
      forall u | u in v.hist.taken ensures u in v.outcomes || Pending(v, u) {
        assert Home(v, u.farmId) == Home(s, u.farmId);
        if u !in s.shards[i].inbox {
          assert u in s.outcomes || Pending(s, u);
        }
      }
    }
  }

  lemma StepKeepsAccounted(s: State, step: Step)
    requires Core(s) && Ordered(s) && Accounted(s)
    ensures |Next(s, step).shards| > 0 && Accounted(Next(s, step))
  {
    StepKeepsCore(s, step);
    match step
    case Submit(t) => SubmitKeepsAccounted(s, t);
    case Accept(i, now) => AcceptKeepsAccounted(s, i, now);
    case TryDispatch(i, now) => TryDispatchKeepsAccounted(s, i, now);
    case Complete(i, now) => CompleteKeepsAccounted(s, i, now);
    case HandOff(i) => HandOffKeepsAccounted(s, i);
    case DropHandOff(i) => DropHandOffKeepsAccounted(s, i);
    case EvictIdle(i, now) => EvictIdleKeepsAccounted(s, i, now);
    case FailAll(i) => FailAllKeepsAccounted(s, i);
    case Take(k) => TakeKeepsAccounted(s, k);
    case Finish(k, left, result) => FinishKeepsAccounted(s, k, left, result);
    case Report(k) => ReportKeepsAccounted(s, k);
    case Abandon(k) => AbandonKeepsAccounted(s, k);
    case StopWorker(k) => StopWorkerKeepsAccounted(s, k);
    case Cancel => WorkerKeepsAccounted(s, s.(live := false), 0);
  }
}
