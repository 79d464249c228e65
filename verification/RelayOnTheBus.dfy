/** What one relay's methods do to its table is a run of the bus, so no event vanishes in them. */
module RelayOnTheBus {
  import opened Prelude
  import opened Outbox
  import opened OutboxRelayRuntime

  ghost function RunFrom<P>(b: Bus<P>, steps: seq<BusStep<P>>): Bus<P> {
    if steps == [] then b else BusNext(RunFrom(b, steps[..|steps| - 1]), steps[|steps| - 1])
  }

  lemma RunPush<P>(b: Bus<P>, steps: seq<BusStep<P>>, s: BusStep<P>)
    ensures RunFrom(b, steps + [s]) == BusNext(RunFrom(b, steps), s)
  {
    assert (steps + [s])[..|steps|] == steps;
  }

  ghost predicate HoldsClaims<P>(b: Bus<P>, worker: int, batch: seq<ClaimedRow<P>>) {
    forall i :: 0 <= i < |batch| ==> (worker, batch[i]) in b.memory.claims
  }

  /** The claim transaction is the bus's claim, and the worker's memory afterwards holds the batch as read. */
  lemma ClaimIsABusStep<P>(b: Bus<P>, batch: seq<ClaimedRow<P>>, locked: set<EventId>, worker: int, limit: nat, now: Time, ttl: Time)
    requires FrontOfQueue(b.table, locked, now, limit, batch)
    ensures var s := Claim(worker, Ids(batch), now, now + ttl);
      && Enabled(b, s)
      && BusNext(b, s).table == Claimed(b.table, Ids(batch), worker, now + ttl)
      && HoldsClaims(BusNext(b, s), worker, batch)
      && BusNext(b, s).memory.claims == b.memory.claims + set i | 0 <= i < |batch| :: (worker, batch[i])
  {
    var s: BusStep<P> := Claim(worker, Ids(batch), now, now + ttl);
    assert Enabled(b, s);
    var claimed := set k | k in Ids(batch) && k in b.table :: (worker, AsClaimed(b.table, k));
    forall i | 0 <= i < |batch| ensures (worker, batch[i]) in claimed {
      assert Eligible(b.table, locked, now, batch[i].eventId);
      assert batch[i] == AsClaimed(b.table, batch[i].eventId);
    }
    forall c | c in claimed ensures c in (set i | 0 <= i < |batch| :: (worker, batch[i])) {
      var k :| k in Ids(batch) && k in b.table && c == (worker, AsClaimed(b.table, k));
      var i :| 0 <= i < |batch| && batch[i].eventId == k;
      assert batch[i] == AsClaimed(b.table, k);
    }
  }

  /** The publisher is asked about each row; it reports results[i], and the broker may have accepted more. */
  function Publishes<P>(worker: int, batch: seq<ClaimedRow<P>>, results: seq<bool>, accepted: seq<bool>, n: nat): seq<BusStep<P>>
    requires n <= |batch| == |results| == |accepted|
  {
    if n == 0 then []
    else
      Publishes(worker, batch, results, accepted, n - 1)
      + [Publish(worker, batch[n - 1], results[n - 1] || accepted[n - 1], results[n - 1])]
  }

  /** The marks of the failed rows that took effect. */
  function Failures<P>(worker: int, batch: seq<ClaimedRow<P>>, a: Answers, maxRetry: nat, now: Time, n: nat): seq<BusStep<P>>
    requires n <= |batch| && Answered(batch, a)
  {
    if n == 0 then []
    else
      Failures(worker, batch, a, maxRetry, now, n - 1)
      + (if Requeues(a, n - 1) then [Fail(worker, batch[n - 1], maxRetry, now)] else [])
  }

  function Marks<P>(worker: int, batch: seq<ClaimedRow<P>>, a: Answers, maxRetry: nat, now: Time): seq<BusStep<P>>
    requires Answered(batch, a)
  {
    Failures(worker, batch, a, maxRetry, now, |batch|)
    + if a.marked then [MarkBatch(worker, Succeeded(batch, a.published, |batch|), now)] else []
  }

  lemma {:induction false} PublishesRun<P>(b: Bus<P>, worker: int, batch: seq<ClaimedRow<P>>, results: seq<bool>, accepted: seq<bool>, n: nat)
    requires n <= |batch| == |results| == |accepted| && HoldsClaims(b, worker, batch)
    ensures var c := RunFrom(b, Publishes(worker, batch, results, accepted, n));
      && c.table == b.table && c.memory.claims == b.memory.claims
      && (forall k :: k in Succeeded(batch, results, n) ==> (worker, k) in c.memory.acked)
      && (forall i :: 0 <= i < n && (results[i] || accepted[i]) ==> (batch[i].eventId, batch[i].payload) in c.broker)
      && b.broker <= c.broker
  {
    if n > 0 {
      PublishesRun(b, worker, batch, results, accepted, n - 1);
      var s := Publish(worker, batch[n - 1], results[n - 1] || accepted[n - 1], results[n - 1]);
      RunPush(b, Publishes(worker, batch, results, accepted, n - 1), s);
    }
  }

  lemma FailIsOneMark<P>(b: Bus<P>, worker: int, row: ClaimedRow<P>, maxRetry: nat, now: Time)
    requires (worker, row) in b.memory.claims
    ensures BusNext(b, Fail(worker, row, maxRetry, now))
         == b.(table := MarkedRetryOrDead(b.table, row.eventId, row.retryCount, maxRetry, now))
  {
  }

  /** The steps change the table to t, and nothing else. */
  ghost predicate Leaves<P>(b: Bus<P>, steps: seq<BusStep<P>>, t: Table<P>) { RunFrom(b, steps) == b.(table := t) }

  lemma FailureLeaves<P>(b: Bus<P>, front: seq<BusStep<P>>, t: Table<P>, t': Table<P>, worker: int, row: ClaimedRow<P>, maxRetry: nat, now: Time)
    requires Leaves(b, front, t) && (worker, row) in b.memory.claims && MarksFailure(t, t', row, true, maxRetry, now)
    ensures Leaves(b, front + [Fail(worker, row, maxRetry, now)], t')
  {
    FailIsOneMark(b.(table := t), worker, row, maxRetry, now);
    RunPush(b, front, Fail(worker, row, maxRetry, now));
  }

  /** The failures of a batch, one table after the other. */
  lemma {:induction false} FailuresLeave<P>(b: Bus<P>, worker: int, batch: seq<ClaimedRow<P>>, a: Answers, maxRetry: nat, now: Time,
                                            tables: seq<Table<P>>, n: nat)
    requires n <= |batch| && Answered(batch, a) && HoldsClaims(b, worker, batch)
    requires |tables| == |batch| + 1 && tables[0] == b.table
    requires forall i :: 0 <= i < |batch| ==> MarksFailure(tables[i], tables[i + 1], batch[i], Requeues(a, i), maxRetry, now)
    ensures Leaves(b, Failures(worker, batch, a, maxRetry, now, n), tables[n])
  {
    if n > 0 {
      FailuresLeave(b, worker, batch, a, maxRetry, now, tables, n - 1);
      var front := Failures(worker, batch, a, maxRetry, now, n - 1);
      assert MarksFailure(tables[n - 1], tables[n], batch[n - 1], Requeues(a, n - 1), maxRetry, now);
      if Requeues(a, n - 1) {
        FailureLeaves(b, front, tables[n - 1], tables[n], worker, batch[n - 1], maxRetry, now);
      } else {
        assert front + [] == front;
      }
    }
  }

  lemma FailuresRun<P>(b: Bus<P>, worker: int, batch: seq<ClaimedRow<P>>, a: Answers, maxRetry: nat, now: Time)
    requires Answered(batch, a) && HoldsClaims(b, worker, batch) && Distinct(batch)
    ensures Leaves(b, Failures(worker, batch, a, maxRetry, now, |batch|), AfterFailures(b.table, batch, a, |batch|, maxRetry, now))
  {
    var tables := FailureTables(b.table, batch, a, maxRetry, now);
    FailuresLeave(b, worker, batch, a, maxRetry, now, tables, |batch|);
  }

  ghost predicate WasTold<P>(b: Bus<P>, worker: int, batch: seq<ClaimedRow<P>>, results: seq<bool>)
    requires |batch| == |results|
  {
    forall k :: k in Succeeded(batch, results, |batch|) ==> (worker, k) in b.memory.acked
  }

  /** The table PublishClaimedBatch leaves is the one its marks leave on the bus, one by one. */
  lemma MarksAreABusRun<P>(b: Bus<P>, worker: int, batch: seq<ClaimedRow<P>>, a: Answers, maxRetry: nat, now: Time)
    requires Answered(batch, a) && Distinct(batch) && HoldsClaims(b, worker, batch) && WasTold(b, worker, batch, a.published)
    ensures Leaves(b, Marks(worker, batch, a, maxRetry, now), AfterBatch(b.table, batch, a, worker, maxRetry, now))
  {
    var failed := Failures(worker, batch, a, maxRetry, now, |batch|);
    FailuresRun(b, worker, batch, a, maxRetry, now);
    if a.marked {
      var t := AfterFailures(b.table, batch, a, |batch|, maxRetry, now);
      MarkIsOneStep(b.(table := t), worker, batch, a.published, now);
      RunPush(b, failed, MarkBatch(worker, Succeeded(batch, a.published, |batch|), now));
    } else {
      assert failed + [] == failed;
    }
  }

  lemma MarkIsOneStep<P>(b: Bus<P>, worker: int, batch: seq<ClaimedRow<P>>, results: seq<bool>, now: Time)
    requires |batch| == |results| && WasTold(b, worker, batch, results)
    ensures var ids := Succeeded(batch, results, |batch|);
      BusNext(b, MarkBatch(worker, ids, now)) == b.(table := MarkedPublishedBatch(b.table, ids, worker, now))
  {
  }

  lemma {:induction false} RunAppend<P>(b: Bus<P>, first: seq<BusStep<P>>, second: seq<BusStep<P>>)
    ensures RunFrom(b, first + second) == RunFrom(RunFrom(b, first), second)
    decreases |second|
  {
    if second == [] {
      assert first + second == first;
    } else {
      assert (first + second)[..|first + second| - 1] == first + second[..|second| - 1];
      RunAppend(b, first, second[..|second| - 1]);
    }
  }

  /**
   * A batch left to itself: its publishes and marks, one by one on the bus, leave the table that
   * PublishClaimedBatch leaves, and the broker holds every accepted row with the payload of the claim.
   */
  lemma BatchIsABusRun<P>(b: Bus<P>, worker: int, batch: seq<ClaimedRow<P>>, a: Answers, accepted: seq<bool>, maxRetry: nat, now: Time)
    requires Answered(batch, a) && |accepted| == |batch| && HoldsClaims(b, worker, batch) && Distinct(batch)
    ensures var c := RunFrom(b, Publishes(worker, batch, a.published, accepted, |batch|) + Marks(worker, batch, a, maxRetry, now));
      && c.table == AfterBatch(b.table, batch, a, worker, maxRetry, now)
      && (forall i :: 0 <= i < |batch| && (a.published[i] || accepted[i]) ==> (batch[i].eventId, batch[i].payload) in c.broker)
  {
    var publishes, marks := Publishes(worker, batch, a.published, accepted, |batch|), Marks(worker, batch, a, maxRetry, now);
    PublishesRun(b, worker, batch, a.published, accepted, |batch|);
    MarksAreABusRun(RunFrom(b, publishes), worker, batch, a, maxRetry, now);
    RunAppend(b, publishes, marks);
  }

  // ---- With everybody else at work ----

  /** A run that goes on from r: events commit under fresh identifiers, anything else may happen. */
  ghost function Continue<P>(r: BusRun<P>, steps: seq<BusStep<P>>): BusRun<P> {
    if steps == [] then r
    else
      var before, s := Continue(r, steps[..|steps| - 1]), steps[|steps| - 1];
      if Fresh(before.committed, s) then
        BusRun(BusNext(before.bus, s), Committed(before.committed, before.bus, s))
      else before
  }

  ghost predicate Extends<P>(was: map<EventId, P>, now: map<EventId, P>) { forall k :: k in was ==> k in now && now[k] == was[k] }

  /** Claims, answers and acceptances are never forgotten, committed events stay, and none vanishes. */
  ghost predicate GoesOn<P>(r: BusRun<P>, v: BusRun<P>) {
    && BusInvariant(v.bus, v.committed) && Extends(r.committed, v.committed)
    && r.bus.memory.claims <= v.bus.memory.claims && r.bus.memory.acked <= v.bus.memory.acked && r.bus.broker <= v.bus.broker
  }

  lemma StepGoesOn<P>(r: BusRun<P>, s: BusStep<P>)
    requires BusInvariant(r.bus, r.committed) && Fresh(r.committed, s)
    ensures GoesOn(r, BusRun(BusNext(r.bus, s), Committed(r.committed, r.bus, s)))
  {
    BusStepKeepsInvariant(r.bus, s, r.committed);
  }

  lemma {:induction false} ContinueGoesOn<P>(r: BusRun<P>, steps: seq<BusStep<P>>)
    requires BusInvariant(r.bus, r.committed)
    ensures GoesOn(r, Continue(r, steps))
  {
    if steps != [] {
      ContinueGoesOn(r, steps[..|steps| - 1]);
      var before, s := Continue(r, steps[..|steps| - 1]), steps[|steps| - 1];
      if Fresh(before.committed, s) { StepGoesOn(before, s); }
    }
  }

  ghost predicate OwnSteps<P>(steps: seq<BusStep<P>>) { forall i :: 0 <= i < |steps| ==> !steps[i].Insert? }

  /** A relay's own steps commit nothing. */
  lemma {:induction false} OwnStepsGoOn<P>(r: BusRun<P>, steps: seq<BusStep<P>>)
    requires BusInvariant(r.bus, r.committed) && OwnSteps(steps)
    ensures GoesOn(r, r.(bus := RunFrom(r.bus, steps)))
  {
    if steps != [] {
      var front, s := steps[..|steps| - 1], steps[|steps| - 1];
      OwnStepsGoOn(r, front);
      StepGoesOn(r.(bus := RunFrom(r.bus, front)), s);
    }
  }

  lemma {:induction false} PublishesAreOwn<P>(worker: int, batch: seq<ClaimedRow<P>>, results: seq<bool>, accepted: seq<bool>, n: nat)
    requires n <= |batch| == |results| == |accepted|
    ensures OwnSteps(Publishes(worker, batch, results, accepted, n))
  {
    if n > 0 { PublishesAreOwn(worker, batch, results, accepted, n - 1); }
  }

  lemma {:induction false} FailuresAreOwn<P>(worker: int, batch: seq<ClaimedRow<P>>, a: Answers, maxRetry: nat, now: Time, n: nat)
    requires n <= |batch| && Answered(batch, a)
    ensures OwnSteps(Failures(worker, batch, a, maxRetry, now, n))
  {
    if n > 0 { FailuresAreOwn(worker, batch, a, maxRetry, now, n - 1); }
  }

  /** After the claim, and whatever others did then, the relay has its batch published. */
  ghost function Published<P>(r: BusRun<P>, worker: int, batch: seq<ClaimedRow<P>>, now: Time, ttl: Time, others: seq<BusStep<P>>,
                              a: Answers, accepted: seq<bool>): BusRun<P>
    requires Answered(batch, a) && |accepted| == |batch|
  {
    var claimed := r.(bus := BusNext(r.bus, Claim(worker, Ids(batch), now, now + ttl)));
    var before := Continue(claimed, others);
    before.(bus := RunFrom(before.bus, Publishes(worker, batch, a.published, accepted, |batch|)))
  }

  lemma PublishedGoesOn<P>(r: BusRun<P>, locked: set<EventId>, worker: int, limit: nat, batch: seq<ClaimedRow<P>>, now: Time, ttl: Time,
                           others: seq<BusStep<P>>, a: Answers, accepted: seq<bool>)
    requires BusInvariant(r.bus, r.committed) && FrontOfQueue(r.bus.table, locked, now, limit, batch)
    requires Answered(batch, a) && |accepted| == |batch|
    ensures var v := Published(r, worker, batch, now, ttl, others, a, accepted);
      && GoesOn(r, v) && HoldsClaims(v.bus, worker, batch) && WasTold(v.bus, worker, batch, a.published)
      && (forall i :: 0 <= i < |batch| && (a.published[i] || accepted[i]) ==> (batch[i].eventId, batch[i].payload) in v.bus.broker)
  {
    var claim: BusStep<P> := Claim(worker, Ids(batch), now, now + ttl);
    var claimed := r.(bus := BusNext(r.bus, claim));
    StepGoesOn(r, claim);
    ClaimIsABusStep(r.bus, batch, locked, worker, limit, now, ttl);
    ContinueGoesOn(claimed, others);
    var before := Continue(claimed, others);
    var publishes := Publishes(worker, batch, a.published, accepted, |batch|);
    PublishesAreOwn(worker, batch, a.published, accepted, |batch|);
    OwnStepsGoOn(before, publishes);
    PublishesRun(before.bus, worker, batch, a.published, accepted, |batch|);
  }

  /**
   * A whole turn of a relay, claim, publishes and marks, with anybody else's steps between claim and
   * publishes and between publishes and marks, new commits among them, and whatever publisher, broker and
   * database answer. Every event ever committed stays in the table with its payload or is in the broker;
   * the marks leave the table they leave in the relay's method; a row this relay still owned then is
   * PUBLISHED exactly when it was reported and the mark took effect.
   */
  lemma RelayTurnLosesNothing<P>(r: BusRun<P>, locked: set<EventId>, worker: int, limit: nat, batch: seq<ClaimedRow<P>>, now: Time, ttl: Time,
                                 others: seq<BusStep<P>>, a: Answers, accepted: seq<bool>, meanwhile: seq<BusStep<P>>,
                                 maxRetry: nat, later: Time, i: nat)
    requires BusInvariant(r.bus, r.committed) && FrontOfQueue(r.bus.table, locked, now, limit, batch)
    requires Answered(batch, a) && |accepted| == |batch| && i < |batch|
    ensures var between := Continue(Published(r, worker, batch, now, ttl, others, a, accepted), meanwhile);
      var c := RunFrom(between.bus, Marks(worker, batch, a, maxRetry, later));
      && BusInvariant(c, between.committed) && Extends(r.committed, between.committed)
      && c.table == AfterBatch(between.bus.table, batch, a, worker, maxRetry, later)
      && (a.published[i] || accepted[i] ==> (batch[i].eventId, batch[i].payload) in c.broker)
      && (var k := batch[i].eventId; k in between.bus.table && OwnedBy(between.bus.table[k], worker) ==>
            k in c.table && (c.table[k].status == Status.Published <==> a.published[i] && a.marked))
  {
    var published := Published(r, worker, batch, now, ttl, others, a, accepted);
    PublishedGoesOn(r, locked, worker, limit, batch, now, ttl, others, a, accepted);
    ContinueGoesOn(published, meanwhile);
    var between := Continue(published, meanwhile);
    FailuresAreOwn(worker, batch, a, maxRetry, later, |batch|);
    OwnStepsGoOn(between, Marks(worker, batch, a, maxRetry, later));
    MarksAreABusRun(between.bus, worker, batch, a, maxRetry, later);
    if batch[i].eventId in between.bus.table { RowAfterBatch(between.bus.table, batch, a, worker, maxRetry, later, i); }
  }
}
