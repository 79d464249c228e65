/**
 * The last leg of a cross-shard theft: a partition of events the broker accepted, the consumer that works
 * through it, and the shards it credits.
 */
module TheftDelivery {
  import opened Prelude
  import opened FarmDomain
  import opened FarmTables
  import opened Cluster
  import opened CropConservation
  import opened CropTheorems
  import opened StealProjector
  import C = EventConsumer

  /** payloads[i] is what message i carries; a message without an event is bytes that do not decode. */
  datatype Feed = Feed(world: World, progress: C.Progress, payloads: seq<Option<Payload>>)

  datatype FeedStep =
    | Elsewhere(step: Step)
    | Arrive(event: Option<(nat, Payload)>, store: Option<C.StoreId>)
    | Consume(move: C.Move)

  function PartitionOf(f: Feed): seq<C.Message> { f.progress.partition }

  /** Handle succeeds on what the projector does not refuse; a theft it accepts is delivered. */
  ghost function Handled(f: Feed): Feed
    requires Shape(f.world) && |f.payloads| == |PartitionOf(f)|
  {
    if !C.CanMove(f.progress, C.Handle) || f.payloads[f.progress.position].None? then f
    else
      var e := PartitionOf(f)[f.progress.position].event.value;
      var p := f.payloads[f.progress.position].value;
      if p.Stolen? && !WellFormed(Some(e), p) then f
      else f.(world := Next(f.world, DeliverStolen(e, p)), progress := C.Next(f.progress, C.Handle))
  }

  ghost function Arrived(f: Feed, event: Option<(nat, Payload)>, store: Option<C.StoreId>): Feed {
    if event.Some? && event.value !in f.world.broker then f
    else
      var m := C.Message(if event.Some? then Some(event.value.0) else None, store);
      f.(progress := C.Next(f.progress, C.Append(m)),
         payloads := f.payloads + [if event.Some? then Some(event.value.1) else None])
  }

  ghost function FeedNext(f: Feed, s: FeedStep): (g: Feed)
    requires Shape(f.world) && |f.payloads| == |PartitionOf(f)|
    ensures Shape(g.world) && |g.payloads| == |PartitionOf(g)| && g.world.wiring == f.world.wiring
  {
    match s
    case Elsewhere(step) =>
      StepKeepsShape(f.world, step);
      f.(world := Next(f.world, step))
    case Arrive(event, store) => Arrived(f, event, store)
    case Consume(m) =>
      if m.Append? then f
      else if m.Handle? then
        if C.CanMove(f.progress, C.Handle) && f.payloads[f.progress.position].Some? then
          StepKeepsShape(f.world, DeliverStolen(PartitionOf(f)[f.progress.position].event.value, f.payloads[f.progress.position].value));
          Handled(f)
        else Handled(f)
      else f.(progress := C.Next(f.progress, m))
  }

  /** A consumer group that starts on an empty partition. */
  ghost function RunFeed(wiring: Wiring, run: seq<FeedStep>): (f: Feed)
    requires wiring.shardCount > 0
    ensures Shape(f.world) && |f.payloads| == |PartitionOf(f)| && f.world.wiring == wiring
  {
    if run == [] then Feed(Run(wiring, []), C.FirstStart([]), [])
    else FeedNext(RunFeed(wiring, run[..|run| - 1]), run[|run| - 1])
  }

  /** No restart while nothing is committed and something is unsettled. */
  ghost predicate SafeFeed(wiring: Wiring, run: seq<FeedStep>)
    requires wiring.shardCount > 0
  {
    run != [] ==>
      && SafeFeed(wiring, run[..|run| - 1])
      && (run[|run| - 1] == Consume(C.Restart) ==> C.SafeRestart(RunFeed(wiring, run[..|run| - 1]).progress))
  }

  /** The cluster's steps in a run, the deliveries of the consumer among them. */
  ghost function WorldSteps(wiring: Wiring, run: seq<FeedStep>): seq<Step>
    requires wiring.shardCount > 0
  {
    if run == [] then []
    else
      var f, s := RunFeed(wiring, run[..|run| - 1]), run[|run| - 1];
      WorldSteps(wiring, run[..|run| - 1])
        + (if s.Elsewhere? then [s.step]
           else if s == Consume(C.Handle) && FeedNext(f, s) != f then
             [DeliverStolen(PartitionOf(f)[f.progress.position].event.value, f.payloads[f.progress.position].value)]
           else [])
  }

  lemma {:induction false} FeedRunsTheCluster(wiring: Wiring, run: seq<FeedStep>)
    requires wiring.shardCount > 0
    ensures RunFeed(wiring, run).world == Run(wiring, WorldSteps(wiring, run))
  {
    if run != [] {
      var front, s := run[..|run| - 1], run[|run| - 1];
      FeedRunsTheCluster(wiring, front);
      var f, steps := RunFeed(wiring, front), WorldSteps(wiring, front);
      if s.Elsewhere? {
        RunSnoc(wiring, steps, s.step);
      } else if s == Consume(C.Handle) && FeedNext(f, s) != f {
        RunSnoc(wiring, steps, DeliverStolen(PartitionOf(f)[f.progress.position].event.value, f.payloads[f.progress.position].value));
      } else {
        assert steps + [] == steps;
      }
    }
  }

  // ---- What holds on the way ----

  /** The events of the partition came from the broker. */
  ghost predicate FromBroker(f: Feed) {
    && |f.payloads| == |PartitionOf(f)|
    && (forall i :: 0 <= i < |f.payloads| && PartitionOf(f)[i].event.Some? ==>
          f.payloads[i].Some? && (PartitionOf(f)[i].event.value, f.payloads[i].value) in f.world.broker)
  }

  ghost predicate Dealt(w: World, e: nat, p: Payload)
    requires Shape(w)
  {
    (e, p) in w.broker && (p.Stolen? ==> WellFormed(Some(e), p)) && (Creditable(w, p) ==> Credited(w, e, p.actorId))
  }

  ghost predicate HandledDealt(w: World, handled: set<nat>)
    requires Shape(w)
  {
    forall e :: e in handled ==> exists p :: Dealt(w, e, p)
  }

  ghost predicate FeedSound(f: Feed) {
    Shape(f.world) && FromBroker(f) && HandledDealt(f.world, f.progress.handled)
  }

  lemma BrokerGrows(w: World, s: Step)
    requires Shape(w)
    ensures w.broker <= Next(w, s).broker
  {
    if LeavesBusAlone(s) {
      BusUntouched(w, s);
    } else if s.CommitFarm? && FarmCommits(w, s.cmd, s.at, s.eventId) {
      var done := CommitFarmCommits(w, s.cmd, s.at, s.eventId);
    }
  }

  lemma DealtStays(w: World, s: Step, handled: set<nat>)
    requires Shape(w) && HandledDealt(w, handled)
    ensures Shape(Next(w, s)) && HandledDealt(Next(w, s), handled)
  {
    StepKeepsShape(w, s);
    BrokerGrows(w, s);
    forall e | e in handled ensures exists p :: Dealt(Next(w, s), e, p) {
      var p :| Dealt(w, e, p);
      if Creditable(w, p) { StepCredits(w, s, e, p.actorId); }
      assert Dealt(Next(w, s), e, p);
    }
  }

  lemma HandlingDeals(f: Feed)
    requires FeedSound(f)
    ensures FeedSound(Handled(f))
  {
    var g := Handled(f);
    if g != f {
      var e, p := PartitionOf(f)[f.progress.position].event.value, f.payloads[f.progress.position].value;
      var s := DeliverStolen(e, p);
      DealtStays(f.world, s, f.progress.handled);
      BrokerGrows(f.world, s);
      assert Dealt(g.world, e, p) by { if Creditable(f.world, p) { StepCredits(f.world, s, e, p.actorId); } }
    }
  }

  lemma FeedStepKeepsSound(f: Feed, s: FeedStep)
    requires FeedSound(f)
    ensures FeedSound(FeedNext(f, s))
  {
    match s
    case Elsewhere(step) =>
      DealtStays(f.world, step, f.progress.handled);
      BrokerGrows(f.world, step);
    case Arrive(event, store) =>
    case Consume(m) => if m.Handle? { HandlingDeals(f); }
  }

  lemma {:induction false} FeedIsSound(wiring: Wiring, run: seq<FeedStep>)
    requires wiring.shardCount > 0
    ensures FeedSound(RunFeed(wiring, run))
  {
    if run != [] {
      FeedIsSound(wiring, run[..|run| - 1]);
      FeedStepKeepsSound(RunFeed(wiring, run[..|run| - 1]), run[|run| - 1]);
    }
  }

  /** For the consumer a step of the feed is one of its moves, or nothing. */
  lemma FeedStepMoves(f: Feed, s: FeedStep)
    requires Shape(f.world) && |f.payloads| == |PartitionOf(f)| && C.Covered(f.progress)
    requires s == Consume(C.Restart) ==> C.SafeRestart(f.progress)
    ensures C.Covered(FeedNext(f, s).progress)
  {
    match s
    case Elsewhere(_) =>
    case Arrive(event, store) =>
      C.MoveKeepsCovered(f.progress, C.Append(C.Message(if event.Some? then Some(event.value.0) else None, store)));
    case Consume(m) => C.MoveKeepsCovered(f.progress, m);
  }

  lemma {:induction false} FeedIsCovered(wiring: Wiring, run: seq<FeedStep>)
    requires wiring.shardCount > 0 && SafeFeed(wiring, run)
    ensures C.Covered(RunFeed(wiring, run).progress)
  {
    if run != [] {
      FeedIsCovered(wiring, run[..|run| - 1]);
      FeedStepMoves(RunFeed(wiring, run[..|run| - 1]), run[|run| - 1]);
    }
  }

  // ---- The theorem ----

  /** An event identifier belongs to one payload: it was committed once, on one shard. */
  lemma OnePayloadEach(wiring: Wiring, steps: seq<Step>, e: nat, p: Payload, q: Payload)
    requires wiring.shardCount > 0
    requires (e, p) in Run(wiring, steps).broker && (e, q) in Run(wiring, steps).broker
    ensures p == q
  {
    RunKeepsCount(wiring, steps);
    var w := Run(wiring, steps);
    assert CommittedEvent(w, e, p) && CommittedEvent(w, e, q);
    var i :| 0 <= i < |w.events| && e in w.events[i] && w.events[i][e] == p;
    var j :| 0 <= j < |w.events| && e in w.events[j] && w.events[j][e] == q;
    assert i == j;
  }

  /**
   * Whatever the consumer, the relays, the broker and the shards do, as long as no reader restarts unsafely:
   * a message before the committed offset is parked, or it is a well-formed event, and if it is a theft
   * across shards then exactly one delivery has credited the thief.
   */
  lemma PassedTheftsAreCreditedOnceOrParked(wiring: Wiring, run: seq<FeedStep>, i: nat)
    requires wiring.shardCount > 0 && SafeFeed(wiring, run)
    requires var p := RunFeed(wiring, run).progress; p.committed.Some? && i < p.committed.value
    ensures var f := RunFeed(wiring, run);
      || i in f.progress.parked
      || (&& i < |f.payloads| && PartitionOf(f)[i].event.Some? && f.payloads[i].Some?
          && (var e, p := PartitionOf(f)[i].event.value, f.payloads[i].value;
              && (p.Stolen? ==> WellFormed(Some(e), p))
              && (Creditable(f.world, p) ==> Credits(wiring, WorldSteps(wiring, run), e, p.actorId) == 1)))
  {
    var f, steps := RunFeed(wiring, run), WorldSteps(wiring, run);
    FeedIsSound(wiring, run);
    FeedIsCovered(wiring, run);
    FeedRunsTheCluster(wiring, run);
    assert C.SettledIn(f.progress, i);
    if i !in f.progress.parked {
      var e, p := PartitionOf(f)[i].event.value, f.payloads[i].value;
      var q :| Dealt(f.world, e, q);
      OnePayloadEach(wiring, steps, e, p, q);
      TheftIsCreditedOnce(wiring, steps, e, p.actorId);
    }
  }
}
