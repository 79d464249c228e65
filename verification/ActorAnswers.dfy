/** What each step of the actor runtime answers, and how its channels move. */
module ActorAnswers {
  import opened Prelude
  import opened ActorMachine
  import opened ActorInvariants
  import opened ActorTheorems

  // ---- Answers ----

  /** The answer a step writes for a task that had none. */
  function NewAnswer(s: State, step: Step, t: Task): Option<Outcome> {
    match step
    case Accept(i, _) =>
      if i < |s.shards| && s.shards[i].scheduler.Idle? && s.shards[i].inbox != [] && s.shards[i].inbox[0] == t then
        var actors := s.shards[i].actors;
        var full :=
          if t.farmId in actors then actors[t.farmId].running && |actors[t.farmId].queue| >= s.cfg.farmQueueCap
          else s.activeActors >= s.cfg.maxActors;
        if full then Some(Backpressure) else None
      else None
    case TryDispatch(i, _) =>
      if i < |s.shards| && s.shards[i].scheduler.Dispatching? && s.shards[i].scheduler.task == t && |s.ready| >= s.cfg.readyCap
      then Some(Backpressure) else None
    case Complete(i, _) =>
      if i < |s.shards| && s.shards[i].scheduler.Idle? && s.shards[i].completed != [] && s.shards[i].completed[0].item.task == t
      then Some(Executed(s.shards[i].completed[0].result)) else None
    case DropHandOff(i) =>
      if !s.live && i < |s.shards| && s.shards[i].scheduler.Holding? && s.shards[i].scheduler.task == t then Some(Cancelled) else None
    case FailAll(i) =>
      if !s.live && i < |s.shards| && s.shards[i].scheduler.Idle? && (t in s.shards[i].inbox || OwedSomewhere(s.shards[i].actors, t))
      then Some(Cancelled) else None
    case Abandon(k) =>
      if !s.live && k < |s.workers| && s.workers[k].Reporting? && s.workers[k].completion.item.task == t then Some(Cancelled) else None
    case _ => None
  }

  predicate OwedSomewhere(actors: map<int, Actor>, t: Task) {
    exists f :: f in actors && (actors[f].inflight == Some(t) || t in actors[f].queue)
  }

  lemma OwedExactly(actors: map<int, Actor>, t: Task)
    ensures t in Owed(actors) <==> OwedSomewhere(actors, t)
  {
    if OwedSomewhere(actors, t) {
      var f :| f in actors && (actors[f].inflight == Some(t) || t in actors[f].queue);
      assert t in OwedBy(actors[f]);
    }
  }

  /** From s to v exactly the step's answer was written, and no other changed. */
  ghost predicate Answers(s: State, v: State, step: Step, t: Task) {
    if t in s.outcomes then t in v.outcomes && v.outcomes[t] == s.outcomes[t]
    else match NewAnswer(s, step, t)
      case None => t !in v.outcomes
      case Some(o) => t in v.outcomes && v.outcomes[t] == o
  }

  /**
   * Every step answers exactly these tasks, exactly so, and never changes an answer: backpressure for want of
   * an actor, of a place in the farm's queue, or of room in the ready channel; the result on completion; and
   * cancellation during shutdown only.
   */
  lemma AnswersExactly(s: State, step: Step, t: Task)
    requires Core(s)
    ensures Answers(s, Next(s, step), step, t)
  {
    match step
    case Accept(i, now) => AcceptAnswersExactly(s, i, now, t);
    case TryDispatch(i, now) => DispatchAnswersExactly(s, i, now, t);
    case Complete(i, now) => CompleteAnswersExactly(s, i, now, t);
    case DropHandOff(i) => DropAnswersExactly(s, i, t);
    case FailAll(i) => ShutdownAnswersExactly(s, i, t);
    case _ => OthersAnswerExactly(s, step, t);
  }

  lemma AcceptAnswersExactly(s: State, i: nat, now: Time, t: Task)
    ensures Answers(s, AfterAccept(s, i, now), Accept(i, now), t)
  {
  }

  lemma DispatchAnswersExactly(s: State, i: nat, now: Time, t: Task)
    requires Core(s)
    ensures Answers(s, AfterTryDispatch(s, i, now), TryDispatch(i, now), t)
  {
    if i < |s.shards| { assert ShardShape(s, i); }
  }

  lemma CompleteAnswersExactly(s: State, i: nat, now: Time, t: Task)
    ensures Answers(s, AfterComplete(s, i, now), Complete(i, now), t)
  {
  }

  lemma DropAnswersExactly(s: State, i: nat, t: Task)
    requires Core(s)
    ensures Answers(s, AfterDropHandOff(s, i), DropHandOff(i), t)
  {
    if i < |s.shards| { assert ShardShape(s, i); }
  }

  lemma ShutdownAnswersExactly(s: State, i: nat, t: Task)
    ensures Answers(s, AfterFailAll(s, i), FailAll(i), t)
  {
    if i < |s.shards| { OwedExactly(s.shards[i].actors, t); }
  }

  lemma OthersAnswerExactly(s: State, step: Step, t: Task)
    requires !step.Accept? && !step.TryDispatch? && !step.Complete? && !step.DropHandOff? && !step.FailAll?
    ensures Answers(s, Next(s, step), step, t)
  {
  }

  // ---- Channels ----

  /** The ready channel: a worker takes the oldest item; a dispatch or hand-off that finds room appends one. */
  function ReadyAfter(s: State, step: Step): seq<Item> {
    match step
    case Take(k) => if k < |s.workers| && s.workers[k].Free? && s.ready != [] then s.ready[1..] else s.ready
    case TryDispatch(i, _) =>
      if i < |s.shards| && s.shards[i].scheduler.Dispatching? then ReadyWith(s, i, s.shards[i].scheduler.task) else s.ready
    case HandOff(i) =>
      if i < |s.shards| && s.shards[i].scheduler.Holding? then ReadyWith(s, i, s.shards[i].scheduler.task) else s.ready
    case _ => s.ready
  }

  function ReadyWith(s: State, i: nat, t: Task): seq<Item>
    requires i < |s.shards|
  {
    var actors := s.shards[i].actors;
    if t.farmId in actors && |s.ready| < s.cfg.readyCap
    then s.ready + [Item(i, actors[t.farmId].id, t, actors[t.farmId].snapshot)] else s.ready
  }

  /** An inbox: a submission that finds room goes last, the scheduler accepts the first, shutdown empties it. */
  function InboxAfter(s: State, step: Step, j: nat): seq<Task>
    requires j < |s.shards|
  {
    var inbox := s.shards[j].inbox;
    match step
    case Submit(t) =>
      if Home(s, t.farmId) == j && t !in s.hist.taken && t !in inbox && |inbox| < s.cfg.ingressCap then inbox + [t] else inbox
    case Accept(i, _) => if i == j && s.shards[j].scheduler.Idle? && inbox != [] then inbox[1..] else inbox
    case FailAll(i) => if i == j && !s.live && s.shards[j].scheduler.Idle? then [] else inbox
    case _ => inbox
  }

  /** A completion channel: a report that finds room goes last, the scheduler completes the first. */
  function CompletedAfter(s: State, step: Step, j: nat): seq<Completion>
    requires j < |s.shards|
  {
    var completed := s.shards[j].completed;
    match step
    case Report(k) =>
      if k < |s.workers| && s.workers[k].Reporting? && s.workers[k].completion.item.shard == j && |completed| < s.cfg.workers
      then completed + [s.workers[k].completion] else completed
    case Complete(i, _) => if i == j && s.shards[j].scheduler.Idle? && completed != [] then completed[1..] else completed
    case _ => completed
  }

  /** All channels are first in, first out, and move exactly when these steps find them so. */
  lemma ChannelsAreFifo(s: State, step: Step, j: nat)
    requires Core(s) && j < |s.shards|
    ensures var v := Next(s, step);
      && |v.shards| == |s.shards|
      && v.ready == ReadyAfter(s, step)
      && v.shards[j].inbox == InboxAfter(s, step, j)
      && v.shards[j].completed == CompletedAfter(s, step, j)
  {
    StepKeepsFrame(s, step);
    if SchedulerStep(step) { SchedulersMoveChannels(s, step, j); } else { WorkersMoveChannels(s, step, j); }
  }

  ghost predicate ChannelsMove(s: State, v: State, step: Step, j: nat) {
    && j < |s.shards| == |v.shards| && v.ready == ReadyAfter(s, step)
    && v.shards[j].inbox == InboxAfter(s, step, j) && v.shards[j].completed == CompletedAfter(s, step, j)
  }

  lemma WorkersMoveChannels(s: State, step: Step, j: nat)
    requires Core(s) && j < |s.shards| && !SchedulerStep(step)
    ensures ChannelsMove(s, Next(s, step), step, j)
  {
  }

  lemma SchedulersMoveChannels(s: State, step: Step, j: nat)
    requires Core(s) && j < |s.shards| && SchedulerStep(step)
    ensures ChannelsMove(s, Next(s, step), step, j)
  {
    match step
    case Accept(i, now) => AcceptMovesChannels(s, i, now, j);
    case TryDispatch(i, now) => DispatchMovesChannels(s, i, now, j);
    case Complete(i, now) => CompleteMovesChannels(s, i, now, j);
    case HandOff(i) => HandOffMovesChannels(s, i, j);
    case _ => OtherSchedulersMoveChannels(s, step, j);
  }

  lemma AcceptMovesChannels(s: State, i: nat, now: Time, j: nat)
    requires j < |s.shards|
    ensures ChannelsMove(s, AfterAccept(s, i, now), Accept(i, now), j)
  {
  }

  lemma DispatchMovesChannels(s: State, i: nat, now: Time, j: nat)
    requires j < |s.shards|
    ensures ChannelsMove(s, AfterTryDispatch(s, i, now), TryDispatch(i, now), j)
  {
  }

  lemma CompleteMovesChannels(s: State, i: nat, now: Time, j: nat)
    requires j < |s.shards|
    ensures ChannelsMove(s, AfterComplete(s, i, now), Complete(i, now), j)
  {
  }

  lemma HandOffMovesChannels(s: State, i: nat, j: nat)
    requires j < |s.shards|
    ensures ChannelsMove(s, AfterHandOff(s, i), HandOff(i), j)
  {
  }

  lemma OtherSchedulersMoveChannels(s: State, step: Step, j: nat)
    requires j < |s.shards| && (step.DropHandOff? || step.EvictIdle? || step.FailAll?)
    ensures ChannelsMove(s, Next(s, step), step, j)
  {
  }
}
