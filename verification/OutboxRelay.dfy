/** The relay and the retention reaper as they run against one shard's tables. */
module OutboxRelayRuntime {
  import opened Prelude
  import opened Outbox

  /** What claimBatch reads of a row before it leaves the transaction. */
  function Ids<P>(batch: seq<ClaimedRow<P>>): (ids: set<EventId>)
  {
    set i | 0 <= i < |batch| :: batch[i].eventId
  }

  lemma IdsPush<P>(batch: seq<ClaimedRow<P>>, row: ClaimedRow<P>)
    ensures Ids(batch + [row]) == Ids(batch) + {row.eventId}
  {
    var longer := batch + [row];
    assert longer[|batch|] == row;
    forall i | 0 <= i < |batch| ensures batch[i].eventId in Ids(longer) {
      assert longer[i] == batch[i];
    }
  }

  /** batch is the front of the eligible rows in outbox_id order, read without change. */
  ghost predicate FrontOfQueue<P>(t: Table<P>, locked: set<EventId>, now: Time, limit: nat, batch: seq<ClaimedRow<P>>) {
    && |batch| <= limit
    && (forall i :: 0 <= i < |batch| ==> Eligible(t, locked, now, batch[i].eventId))
    && (forall i :: 0 <= i < |batch| ==>
          batch[i].payload == t[batch[i].eventId].payload && batch[i].retryCount == t[batch[i].eventId].retryCount)
    && (forall i, j :: 0 <= i < j < |batch| ==>
          batch[i].eventId != batch[j].eventId && t[batch[i].eventId].outboxId <= t[batch[j].eventId].outboxId)
    && (forall k :: Eligible(t, locked, now, k) && k !in Ids(batch) ==>
          |batch| == limit && forall i :: 0 <= i < |batch| ==> t[batch[i].eventId].outboxId <= t[k].outboxId)
  }

  /** Where a key sits in the batch, or the batch length. */
  function Position<P>(batch: seq<ClaimedRow<P>>, k: EventId): (i: nat)
    ensures i <= |batch|
    ensures i < |batch| ==> batch[i].eventId == k
    ensures i == |batch| <==> k !in Ids(batch)
  {
    if batch == [] then 0
    else if batch[0].eventId == k then 0
    else
      var rest := Position(batch[1..], k);
      assert forall i :: 0 <= i < |batch| - 1 ==> batch[1..][i] == batch[i + 1];
      assert k in Ids(batch) ==> k in Ids(batch[1..]) by {
        if k in Ids(batch) {
          var i :| 0 <= i < |batch| && batch[i].eventId == k;
          assert batch[1..][i - 1].eventId == k;
        }
      }
      rest + 1
  }

  /**
   * What the publisher and the database answer to one batch: for each row whether it was published and, if
   * not, whether its mark took effect (an error there is only logged); then whether the mark of the published
   * rows took effect, and whether the relay was told so.
   */
  datatype Answers = Answers(published: seq<bool>, requeued: seq<bool>, marked: bool, acknowledged: bool)

  predicate Answered<P>(batch: seq<ClaimedRow<P>>, a: Answers) { |a.published| == |a.requeued| == |batch| }

  predicate Distinct<P>(batch: seq<ClaimedRow<P>>) { forall i, j :: 0 <= i < j < |batch| ==> batch[i].eventId != batch[j].eventId }

  predicate Requeues(a: Answers, i: nat)
    requires i < |a.published| == |a.requeued|
  {
    !a.published[i] && a.requeued[i]
  }

  /** The table after the first n publish results: failures are requeued or dead, the rest untouched. */
  function AfterFailures<P>(t: Table<P>, batch: seq<ClaimedRow<P>>, a: Answers, n: nat, maxRetry: nat, now: Time): Table<P>
    requires n <= |batch| && Answered(batch, a)
  {
    map k | k in t ::
      var i := Position(batch, k);
      if i < n && Requeues(a, i) then RetriedRow(t[k], batch[i].retryCount, maxRetry, now) else t[k]
  }

  /** The table after the whole batch: the published rows this worker still holds are marked last, if they are. */
  function AfterBatch<P>(t: Table<P>, batch: seq<ClaimedRow<P>>, a: Answers, worker: int, maxRetry: nat, now: Time): Table<P>
    requires Answered(batch, a)
  {
    var failed := AfterFailures(t, batch, a, |batch|, maxRetry, now);
    if a.marked then MarkedPublishedBatch(failed, Succeeded(batch, a.published, |batch|), worker, now) else failed
  }

  function Succeeded<P>(batch: seq<ClaimedRow<P>>, results: seq<bool>, n: nat): set<EventId>
    requires n <= |batch| == |results|
  {
    set i | 0 <= i < n && results[i] :: batch[i].eventId
  }

  class OutboxRelay<P(==)> {
    var table: Table<P>
    const workerId: int
    const batchSize: nat
    const maxRetry: nat
    const lockTTL: Time

    constructor (table: Table<P>, workerId: int, batchSize: nat, maxRetry: nat, lockTTL: Time)
      ensures this.table == table && this.workerId == workerId && this.lockTTL == lockTTL
      ensures this.batchSize == batchSize && this.maxRetry == maxRetry
    {
      this.table := table;
      this.workerId := workerId;
      this.batchSize := batchSize;
      this.maxRetry := maxRetry;
      this.lockTTL := lockTTL;
    }

    method ReclaimStale(now: Time)
      modifies this
      ensures table == Reclaimed(old(table), now)
      ensures table.Keys == old(table).Keys
      ensures forall k :: k in table ==>
        var row := old(table)[k];
        table[k] == if row.status == Publishing && row.lockedUntil.Some? && row.lockedUntil.value < now
                    then row.(status := Pending, lockedBy := None, lockedUntil := None) else row
    {
      var rest := table.Keys;
      ghost var was := table;
      while rest != {}
        invariant rest <= table.Keys == was.Keys
        invariant forall k :: k in was ==> table[k] == (if k in rest then was[k] else Reclaimed(was, now)[k])
        decreases |rest|
      {
        var k :| k in rest;
        rest := rest - {k};
        var row := table[k];
        if row.status == Publishing && row.lockedUntil.Some? && row.lockedUntil.value < now {
          table := table[k := row.(status := Pending, lockedBy := None, lockedUntil := None)];
        }
      }
    }

    /** The next row in outbox_id order that SKIP LOCKED does not pass over. */
    method NextEligible(locked: set<EventId>, taken: set<EventId>, now: Time) returns (next: Option<EventId>)
      ensures next.None? ==> forall k :: Eligible(table, locked, now, k) ==> k in taken
      ensures next.Some? ==> Eligible(table, locked, now, next.value) && next.value !in taken
      ensures next.Some? ==> forall k :: Eligible(table, locked, now, k) && k !in taken ==>
                               table[next.value].outboxId <= table[k].outboxId
    {
      next := None;
      var rest := table.Keys;
      while rest != {}
        invariant rest <= table.Keys
        invariant next.None? ==> forall k :: Eligible(table, locked, now, k) && k !in rest ==> k in taken
        invariant next.Some? ==> Eligible(table, locked, now, next.value) && next.value !in taken
        invariant next.Some? ==> forall k :: Eligible(table, locked, now, k) && k !in taken && k !in rest ==>
                                   table[next.value].outboxId <= table[k].outboxId
        decreases |rest|
      {
        var k :| k in rest;
        rest := rest - {k};
        if table[k].status == Pending && table[k].availableAt <= now && k !in locked && k !in taken {
          if next.None? || table[k].outboxId < table[next.value].outboxId {
            next := Some(k);
          }
        }
      }
    }

    method ClaimBatch(locked: set<EventId>, now: Time) returns (batch: seq<ClaimedRow<P>>)
      modifies this
      ensures FrontOfQueue(old(table), locked, now, batchSize, batch) && |batch| <= batchSize
      ensures table == Claimed(old(table), Ids(batch), workerId, now + lockTTL)
      ensures table.Keys == old(table).Keys
      ensures forall k :: k in table ==>
        table[k] == if k in Ids(batch)
                    then old(table)[k].(status := Publishing, lockedBy := Some(workerId), lockedUntil := Some(now + lockTTL))
                    else old(table)[k]
      ensures forall k :: k in Ids(batch) ==> k in old(table) && old(table)[k].status == Pending && old(table)[k].availableAt <= now && k !in locked
      ensures |batch| < batchSize ==>
        forall k :: k in old(table) && old(table)[k].status == Pending && old(table)[k].availableAt <= now && k !in locked ==> k in Ids(batch)
    {
      batch := [];
      var more := true;
      while more && |batch| < batchSize
        invariant table == old(table)
        invariant forall i :: 0 <= i < |batch| ==> Eligible(table, locked, now, batch[i].eventId)
        invariant |batch| <= batchSize
        invariant forall i :: 0 <= i < |batch| ==>
                    batch[i].payload == table[batch[i].eventId].payload && batch[i].retryCount == table[batch[i].eventId].retryCount
        invariant forall i, j :: 0 <= i < j < |batch| ==>
                    batch[i].eventId != batch[j].eventId && table[batch[i].eventId].outboxId <= table[batch[j].eventId].outboxId
        invariant forall k :: Eligible(table, locked, now, k) && k !in Ids(batch) ==>
                    more && forall i :: 0 <= i < |batch| ==> table[batch[i].eventId].outboxId <= table[k].outboxId
        decreases more, batchSize - |batch|
      {
        var next := NextEligible(locked, Ids(batch), now);
        if next.None? {
          more := false;
        } else {
          ghost var before := batch;
          batch := batch + [ClaimedRow(next.value, table[next.value].payload, table[next.value].retryCount)];
          IdsPush(before, batch[|before|]);
        }
      }
      table := Claimed(table, Ids(batch), workerId, now + lockTTL);
    }

    /**
     * The row after a failed publish: dead once the failures outnumber the retries, otherwise waiting again,
     * five seconds longer for each failure; unlocked and with its payload in either case.
     */
    method MarkRetryOrDead(row: ClaimedRow<P>, now: Time)
      modifies this`table
      ensures table == MarkedRetryOrDead(old(table), row.eventId, row.retryCount, maxRetry, now)
      ensures row.eventId in old(table) ==>
        var was := old(table)[row.eventId];
        table == old(table)[row.eventId := was.(
          status := if row.retryCount >= maxRetry then Dead else Pending, retryCount := row.retryCount + 1,
          availableAt := if row.retryCount >= maxRetry then was.availableAt else now + (row.retryCount + 1) * 5_000_000_000,
          lockedBy := None, lockedUntil := None)]
    {
      if row.eventId !in table {
        return;
      }
      var nextCount := row.retryCount + 1;
      var was := table[row.eventId];
      if nextCount > maxRetry {
        table := table[row.eventId := was.(status := Dead, retryCount := nextCount, lockedBy := None, lockedUntil := None)];
        return;
      }
      var backoff := nextCount * BACKOFF_BASE;
      table := table[row.eventId := was.(status := Pending, retryCount := nextCount, availableAt := now + backoff,
                                         lockedBy := None, lockedUntil := None)];
    }

    /** The mark of one failure takes effect, or the database loses it and the error is only logged. */
    method TryToMark(row: ClaimedRow<P>, takesEffect: bool, now: Time)
      modifies this`table
      ensures table == if takesEffect then MarkedRetryOrDead(old(table), row.eventId, row.retryCount, maxRetry, now) else old(table)
    {
      if takesEffect { MarkRetryOrDead(row, now); }
    }

    /** Marks the failures one by one and collects the rest. */
    method MarkFailures(batch: seq<ClaimedRow<P>>, a: Answers, now: Time) returns (succeeded: set<EventId>)
      requires Distinct(batch) && Answered(batch, a)
      modifies this
      ensures succeeded == Succeeded(batch, a.published, |batch|)
      ensures table == AfterFailures(old(table), batch, a, |batch|, maxRetry, now)
      ensures forall i :: 0 <= i < |batch| && batch[i].eventId in old(table) && Requeues(a, i) ==> FailureMarked(table, batch[i], maxRetry)
    {
      succeeded := {};
      ghost var tables := FailureTables(table, batch, a, maxRetry, now);
      for i := 0 to |batch|
        invariant succeeded == Succeeded(batch, a.published, i)
        invariant table == tables[i]
      {
        assert MarksFailure(tables[i], tables[i + 1], batch[i], Requeues(a, i), maxRetry, now);
        if a.published[i] {
          succeeded := succeeded + {batch[i].eventId};
        } else {
          TryToMark(batch[i], a.requeued[i], now);
        }
      }
      FailuresAreMarked(old(table), batch, a, maxRetry, now);
    }

    /** One statement for all published rows; its error, or a row it missed, is the batch's error. */
    method MarkPublished(succeeded: set<EventId>, a: Answers, now: Time) returns (ok: bool)
      modifies this
      ensures table == if a.marked then MarkedPublishedBatch(old(table), succeeded, workerId, now) else old(table)
      ensures ok <==> a.acknowledged && forall k :: k in succeeded ==> k in old(table) && OwnedBy(old(table)[k], workerId)
    {
      ok := a.acknowledged && forall k :: k in succeeded ==> k in table && OwnedBy(table[k], workerId);
      if a.marked {
        table := MarkedPublishedBatch(table, succeeded, workerId, now);
      }
    }

    /**
     * One batch of publish results. An answer of the wrong length changes nothing; otherwise failures
     * go back to PENDING or to DEAD, and successes this worker still holds become PUBLISHED, each as far as
     * the database takes the mark; a row whose mark is lost stays as it was. `ok` is false exactly when the
     * mark of the successes was not acknowledged, or some of them was lost to another worker meanwhile.
     */
    method PublishClaimedBatch(batch: seq<ClaimedRow<P>>, a: Answers, now: Time) returns (ok: bool)
      requires Distinct(batch) && |a.requeued| == |batch| && (a.acknowledged ==> a.marked)
      modifies this
      ensures |a.published| != |batch| ==> !ok && table == old(table)
      ensures |a.published| == |batch| ==>
        && table == AfterBatch(old(table), batch, a, workerId, maxRetry, now)
        && (ok <==> forall k :: k in Succeeded(batch, a.published, |batch|) ==>
                      a.acknowledged && k in old(table) && OwnedBy(old(table)[k], workerId))
    {
      if |a.published| != |batch| {
        return false;
      }
      var succeeded := MarkFailures(batch, a, now);
      if succeeded == {} {
        NothingToMark(table, workerId, now);
        return true;
      }
      SuccessesUntouched(old(table), batch, a, maxRetry, now);
      ok := MarkPublished(succeeded, a, now);
    }
  }

  /** The row is waiting again, or dead if its retries are used up, and has counted the failure. */
  predicate FailureMarked<P>(t: Table<P>, row: ClaimedRow<P>, maxRetry: nat) {
    && row.eventId in t
    && t[row.eventId].status == (if row.retryCount >= maxRetry then Dead else Pending)
    && t[row.eventId].retryCount == row.retryCount + 1
  }

  lemma FailuresAreMarked<P>(t: Table<P>, batch: seq<ClaimedRow<P>>, a: Answers, maxRetry: nat, now: Time)
    requires Answered(batch, a) && Distinct(batch)
    ensures var after := AfterFailures(t, batch, a, |batch|, maxRetry, now);
      forall i :: 0 <= i < |batch| && batch[i].eventId in t && Requeues(a, i) ==> FailureMarked(after, batch[i], maxRetry)
  {
    forall i | 0 <= i < |batch| && batch[i].eventId in t && Requeues(a, i)
      ensures FailureMarked(AfterFailures(t, batch, a, |batch|, maxRetry, now), batch[i], maxRetry)
    {
      RowAfterFailures(t, batch, a, maxRetry, now, i);
    }
  }

  lemma NothingToMark<P>(t: Table<P>, worker: int, now: Time)
    ensures MarkedPublishedBatch(t, {}, worker, now) == t
  {
  }

  lemma {:induction false} PositionOf<P>(batch: seq<ClaimedRow<P>>, i: nat)
    requires forall a, b :: 0 <= a < b < |batch| ==> batch[a].eventId != batch[b].eventId
    requires i < |batch|
    ensures Position(batch, batch[i].eventId) == i
  {
    if i > 0 {
      assert batch[1..][i - 1] == batch[i];
      PositionOf(batch[1..], i - 1);
    }
  }

  /** One more result changes the row of its own message at most. */
  lemma OneMoreFailure<P>(t: Table<P>, batch: seq<ClaimedRow<P>>, a: Answers, i: nat, maxRetry: nat, now: Time, q: EventId)
    requires i < |batch| && Answered(batch, a) && q in t
    ensures var after := AfterFailures(t, batch, a, i + 1, maxRetry, now);
      q in after && after[q] == if Position(batch, q) == i && Requeues(a, i) then RetriedRow(t[q], batch[i].retryCount, maxRetry, now)
                               else AfterFailures(t, batch, a, i, maxRetry, now)[q]
  {
  }

  lemma NotYetFailed<P>(t: Table<P>, batch: seq<ClaimedRow<P>>, a: Answers, i: nat, maxRetry: nat, now: Time)
    requires i < |batch| && Answered(batch, a) && Distinct(batch) && batch[i].eventId in t
    ensures AfterFailures(t, batch, a, i, maxRetry, now)[batch[i].eventId] == t[batch[i].eventId]
  {
    PositionOf(batch, i);
  }

  lemma AfterFailuresStep<P>(t: Table<P>, batch: seq<ClaimedRow<P>>, a: Answers, i: nat, maxRetry: nat, now: Time)
    requires i < |batch| && Answered(batch, a) && Distinct(batch)
    ensures var k := batch[i].eventId;
      var before := AfterFailures(t, batch, a, i, maxRetry, now);
      AfterFailures(t, batch, a, i + 1, maxRetry, now)
        == if !Requeues(a, i) || k !in before then before
           else before[k := RetriedRow(before[k], batch[i].retryCount, maxRetry, now)]
  {
    var k := batch[i].eventId;
    if k in t { NotYetFailed(t, batch, a, i, maxRetry, now); }
    PositionOf(batch, i);
    forall q | q in t { OneMoreFailure(t, batch, a, i, maxRetry, now, q); }
  }

  lemma NextFailure<P>(t: Table<P>, batch: seq<ClaimedRow<P>>, a: Answers, maxRetry: nat, now: Time, i: nat)
    requires i < |batch| && Answered(batch, a) && Distinct(batch)
    ensures AfterFailures(t, batch, a, i + 1, maxRetry, now) ==
      (var before := AfterFailures(t, batch, a, i, maxRetry, now);
       if Requeues(a, i) then MarkedRetryOrDead(before, batch[i].eventId, batch[i].retryCount, maxRetry, now) else before)
  {
    AfterFailuresStep(t, batch, a, i, maxRetry, now);
  }

  ghost predicate MarksFailure<P>(t: Table<P>, t': Table<P>, row: ClaimedRow<P>, requeues: bool, maxRetry: nat, now: Time) {
    t' == if requeues then MarkedRetryOrDead(t, row.eventId, row.retryCount, maxRetry, now) else t
  }

  lemma NoFailureYet<P>(t: Table<P>, batch: seq<ClaimedRow<P>>, a: Answers, maxRetry: nat, now: Time)
    requires Answered(batch, a)
    ensures AfterFailures(t, batch, a, 0, maxRetry, now) == t
  {
  }

  /** The tables on the way, one for each number of results looked at. */
  lemma FailureTables<P>(t: Table<P>, batch: seq<ClaimedRow<P>>, a: Answers, maxRetry: nat, now: Time) returns (tables: seq<Table<P>>)
    requires Answered(batch, a) && Distinct(batch)
    ensures |tables| == |batch| + 1 && tables[0] == t && tables[|batch|] == AfterFailures(t, batch, a, |batch|, maxRetry, now)
    ensures forall i :: 0 <= i < |batch| ==> MarksFailure(tables[i], tables[i + 1], batch[i], Requeues(a, i), maxRetry, now)
  {
    tables := seq(|batch| + 1, i requires 0 <= i <= |batch| => AfterFailures(t, batch, a, i, maxRetry, now));
    NoFailureYet(t, batch, a, maxRetry, now);
    forall i | 0 <= i < |batch| ensures MarksFailure(tables[i], tables[i + 1], batch[i], Requeues(a, i), maxRetry, now) {
      NextFailure(t, batch, a, maxRetry, now, i);
    }
  }

  lemma RowAfterFailures<P>(t: Table<P>, batch: seq<ClaimedRow<P>>, a: Answers, maxRetry: nat, now: Time, i: nat)
    requires Answered(batch, a) && Distinct(batch) && i < |batch| && batch[i].eventId in t
    ensures var after := AfterFailures(t, batch, a, |batch|, maxRetry, now); var k := batch[i].eventId;
      k in after && after[k] == if Requeues(a, i) then RetriedRow(t[k], batch[i].retryCount, maxRetry, now) else t[k]
  {
    PositionOf(batch, i);
  }

  lemma SuccessesUntouched<P>(t: Table<P>, batch: seq<ClaimedRow<P>>, a: Answers, maxRetry: nat, now: Time)
    requires Answered(batch, a) && Distinct(batch)
    ensures var after := AfterFailures(t, batch, a, |batch|, maxRetry, now);
      forall k :: k in Succeeded(batch, a.published, |batch|) ==> (k in after <==> k in t) && (k in t ==> after[k] == t[k])
  {
    var after := AfterFailures(t, batch, a, |batch|, maxRetry, now);
    forall k | k in Succeeded(batch, a.published, |batch|) && k in t ensures after[k] == t[k] {
      var i :| 0 <= i < |batch| && a.published[i] && batch[i].eventId == k;
      PositionOf(batch, i);
    }
  }

  lemma MarkedRow<P>(t: Table<P>, ids: set<EventId>, worker: int, now: Time, k: EventId)
    requires k in t
    ensures var after := MarkedPublishedBatch(t, ids, worker, now);
      k in after && after[k] == if k in ids && OwnedBy(t[k], worker) then PublishedRow(t[k], now) else t[k]
  {
  }

  lemma ReportedIsSucceeded<P>(batch: seq<ClaimedRow<P>>, results: seq<bool>, i: nat)
    requires i < |batch| == |results| && Distinct(batch)
    ensures batch[i].eventId in Succeeded(batch, results, |batch|) <==> results[i]
  {
  }

  /** What a batch makes of one of its rows. */
  lemma RowAfterBatch<P>(t: Table<P>, batch: seq<ClaimedRow<P>>, a: Answers, worker: int, maxRetry: nat, now: Time, i: nat)
    requires Answered(batch, a) && Distinct(batch) && i < |batch| && batch[i].eventId in t
    ensures var after := AfterBatch(t, batch, a, worker, maxRetry, now); var k := batch[i].eventId;
      k in after && after[k] ==
        if Requeues(a, i) then RetriedRow(t[k], batch[i].retryCount, maxRetry, now)
        else if a.published[i] && a.marked && OwnedBy(t[k], worker) then PublishedRow(t[k], now)
        else t[k]
  {
    RowAfterFailures(t, batch, a, maxRetry, now, i);
    ReportedIsSucceeded(batch, a.published, i);
    var failed := AfterFailures(t, batch, a, |batch|, maxRetry, now);
    if a.marked { MarkedRow(failed, Succeeded(batch, a.published, |batch|), worker, now, batch[i].eventId); }
  }

  /**
   * One batch never loses a row or its payload, whatever publisher and database answered: a row of the batch
   * is afterwards DEAD, PENDING with a larger count, PUBLISHED, or exactly as it was. It is dead if and only if
   * it was, or was requeued with its retries used up.
   */
  lemma BatchOutcome<P>(t: Table<P>, batch: seq<ClaimedRow<P>>, a: Answers, worker: int, maxRetry: nat, now: Time, i: nat)
    requires Answered(batch, a) && Distinct(batch) && i < |batch| && batch[i].eventId in t
    ensures var after := AfterBatch(t, batch, a, worker, maxRetry, now);
      var k := batch[i].eventId;
      && after.Keys == t.Keys
      && after[k].payload == t[k].payload
      && (after[k].status == Dead && t[k].status != Dead ==> Requeues(a, i) && batch[i].retryCount >= maxRetry)
      && (after[k].status == Published && t[k].status != Published ==> a.published[i] && a.marked && OwnedBy(t[k], worker))
      && (Requeues(a, i) && batch[i].retryCount < maxRetry ==>
            after[k].status == Pending && after[k].retryCount == batch[i].retryCount + 1
            && after[k].availableAt == now + after[k].retryCount * 5_000_000_000)
      && (Requeues(a, i) && batch[i].retryCount >= maxRetry ==>
            after[k] == t[k].(status := Dead, retryCount := batch[i].retryCount + 1, lockedBy := None, lockedUntil := None))
      && (Requeues(a, i) ==> after[k].lockedBy.None? && after[k].lockedUntil.None?)
      && (after[k].status == Dead <==>
            if Requeues(a, i) then batch[i].retryCount >= maxRetry
            else t[k].status == Dead && !(a.published[i] && a.marked && OwnedBy(t[k], worker)))
      && (a.published[i] && a.marked && OwnedBy(t[k], worker) ==>
            after[k] == t[k].(status := Published, publishedAt := Some(now), lockedBy := None, lockedUntil := None))
      && (!Requeues(a, i) && !(a.published[i] && a.marked) ==> after[k] == t[k])
  {
    RowAfterBatch(t, batch, a, worker, maxRetry, now, i);
  }

  // ---- Retention ----

  /** A table the reaper visits: primary key to the stamp it compares, None for rows out of its scope. */
  type Stamps = map<nat, Option<Time>>

  predicate IsExpired(t: Stamps, k: int, cutoff: Time) { k in t && t[k].Some? && t[k].value < cutoff }

  /** One DELETE statement: the table it met, the keys handed out by then, and what it removed. */
  datatype Batch = Batch(before: Stamps, used: set<nat>, gone: set<nat>) {
    function After(): Stamps { before - gone }

    /** Expired rows only, no more than the limit, and no expired row left with a smaller key. */
    ghost predicate Proper(cutoff: Time, limit: nat) {
      && |gone| <= limit && gone <= before.Keys
      && (forall k :: k in gone ==> IsExpired(before, k, cutoff))
      && (forall k, g :: g in gone && IsExpired(After(), k, cutoff) ==> g < k)
    }
  }

  /**
   * What other transactions may do to the table in the meantime: insert under keys never handed out before,
   * give a row another stamp, delete rows.
   */
  predicate Interfered(rows: Stamps, used: set<nat>, later: Stamps, usedLater: set<nat>) {
    used <= usedLater && later.Keys <= usedLater && later.Keys * used <= rows.Keys
  }

  /** Every statement met what others had made of what the one before it left. */
  predicate Chained(rows: Stamps, used: set<nat>, batches: seq<Batch>) {
    && (|batches| > 0 ==> Interfered(rows, used, batches[0].before, batches[0].used))
    && (forall i :: 0 < i < |batches| ==>
          Interfered(batches[i - 1].After(), batches[i - 1].used, batches[i].before, batches[i].used))
  }

  function TotalGone(batches: seq<Batch>): nat {
    if batches == [] then 0 else TotalGone(batches[..|batches| - 1]) + |batches[|batches| - 1].gone|
  }

  function GoneBefore(batches: seq<Batch>, n: nat): set<nat>
    requires n <= |batches|
  {
    set i, k | 0 <= i < n && k in batches[i].gone :: k
  }

  class ReapedTable {
    var rows: Stamps
    /** Every key the table has ever handed out; auto-increment never hands one out again. */
    var used: set<nat>

    constructor (rows: Stamps)
      ensures this.rows == rows && used == rows.Keys
    {
      this.rows, used := rows, rows.Keys;
    }

    /** The expired row with the smallest key, if there is one. */
    method SmallestExpired(cutoff: Time) returns (next: Option<nat>)
      ensures next.Some? ==> IsExpired(rows, next.value, cutoff)
      ensures forall k :: IsExpired(rows, k, cutoff) ==> next.Some? && next.value <= k
    {
      next := None;
      var rest := rows.Keys;
      while rest != {}
        invariant rest <= rows.Keys
        invariant next.Some? ==> IsExpired(rows, next.value, cutoff)
        invariant forall k :: IsExpired(rows, k, cutoff) && k !in rest ==> next.Some? && next.value <= k
        decreases |rest|
      {
        var k :| k in rest;
        rest := rest - {k};
        if rows[k].Some? && rows[k].value < cutoff && (next.None? || k < next.value) {
          next := Some(k);
        }
      }
    }

    /** DELETE ... ORDER BY key ASC LIMIT: the expired rows with the smallest keys, at most `limit`. */
    method DeleteExpired(cutoff: Time, limit: nat) returns (n: nat, ghost gone: set<nat>)
      modifies this`rows
      ensures n == |gone| <= limit
      ensures forall k :: k in gone ==> IsExpired(old(rows), k, cutoff)
      ensures forall k :: k in gone ==> k in old(rows) && old(rows)[k].Some? && old(rows)[k].value < cutoff
      ensures n < limit ==> forall k :: k in rows && rows[k].Some? ==> cutoff <= rows[k].value
      ensures rows == old(rows) - gone
      ensures n < limit ==> forall k :: !IsExpired(rows, k, cutoff)
      ensures forall k, g :: g in gone && IsExpired(rows, k, cutoff) ==> g < k
    {
      n, gone := 0, {};
      while n < limit
        invariant n == |gone| <= limit
        invariant forall k :: k in gone ==> IsExpired(old(rows), k, cutoff)
        invariant rows == old(rows) - gone
        invariant forall k, g :: g in gone && IsExpired(rows, k, cutoff) ==> g < k
      {
        var next := SmallestExpired(cutoff);
        if next.None? {
          assert forall k: nat :: k in rows ==> !IsExpired(rows, k, cutoff);
          return;
        }
        ghost var before := rows;
        rows := rows - {next.value};
        forall k | IsExpired(rows, k, cutoff) ensures IsExpired(before, k, cutoff) && next.value < k {
          assert k in before && before[k] == rows[k] && k != next.value;
          assert IsExpired(before, k, cutoff);
        }
        gone := gone + {next.value};
        n := n + 1;
      }
    }

    /** Whatever other transactions do between two batches: relays, consumers, another reaper. */
    method OtherWriters()
      requires rows.Keys <= used
      modifies this
      ensures Interfered(old(rows), old(used), rows, used)
    {
      var n: nat := *;
      while n > 0
        invariant Interfered(old(rows), old(used), rows, used)
      {
        var k: nat, stamp: Option<Time>, deletes: bool := *, *, *;
        if k in rows {
          rows := if deletes then rows - {k} else rows[k := stamp];
        } else if k !in used {
          rows, used := rows[k := stamp], used + {k};
        }
        n := n - 1;
      }
    }

    /** One turn of the loop: what others did in the meantime, then one statement. */
    method ReapBatch(cutoff: Time, limit: nat) returns (n: nat, ghost b: Batch)
      requires rows.Keys <= used
      modifies this
      ensures Interfered(old(rows), old(used), b.before, b.used) && b.Proper(cutoff, limit)
      ensures rows == b.After() && used == b.used && rows.Keys <= used && n == |b.gone|
      ensures n < limit ==> forall k :: !IsExpired(rows, k, cutoff)
    {
      OtherWriters();
      ghost var before := rows;
      ghost var gone;
      n, gone := DeleteExpired(cutoff, limit);
      b := Batch(before, used, gone);
      forall k | k in gone ensures k in before { assert IsExpired(before, k, cutoff); }
    }

    /**
     * Batched deletion while others insert, update and delete rows between the batches. The loop ends; each
     * statement removes only rows expired then, those with the smallest keys; the total stays within
     * maxPerRun. When it was neither cancelled nor failed and stopped below the cap, its last statement left
     * no expired row.
     */
    method ReapTable(cutoff: Time, batchSize: nat, maxPerRun: nat)
      returns (deleted: nat, stopped: bool, ghost batches: seq<Batch>)
      requires batchSize > 0 && maxPerRun > 0 && rows.Keys <= used
      modifies this
      ensures Chained(old(rows), old(used), batches) && EndsWith(old(rows), old(used), batches, rows, used)
      ensures forall b :: b in batches ==> b.Proper(cutoff, batchSize)
      ensures deleted == TotalGone(batches) <= maxPerRun
      ensures batches == [] ==> stopped
      ensures !stopped && deleted < maxPerRun ==> forall k :: !IsExpired(rows, k, cutoff)
    {
      deleted, stopped, batches := 0, false, [];
      var exhausted := false;
      while deleted < maxPerRun && !exhausted
        invariant Chained(old(rows), old(used), batches) && EndsWith(old(rows), old(used), batches, rows, used)
        invariant forall b :: b in batches ==> b.Proper(cutoff, batchSize)
        invariant deleted == TotalGone(batches) <= maxPerRun && rows.Keys <= used
        invariant exhausted ==> forall k :: !IsExpired(rows, k, cutoff)
        invariant batches == [] ==> !exhausted
        decreases !exhausted, maxPerRun - deleted
      {
        var cancelledOrFailed: bool := *;
        if cancelledOrFailed {
          stopped := true;
          return;
        }
        var limit := if maxPerRun - deleted < batchSize then maxPerRun - deleted else batchSize;
        ghost var met, metUsed := rows, used;
        var n; ghost var b;
        n, b := ReapBatch(cutoff, limit);
        ChainGrows(old(rows), old(used), batches, met, metUsed, b);
        batches := batches + [b];
        deleted := deleted + n;
        exhausted := n < limit;
      }
    }
  }

  /** The table the last statement left, or the one there was. */
  predicate EndsWith(rows: Stamps, used: set<nat>, batches: seq<Batch>, last: Stamps, lastUsed: set<nat>) {
    if batches == [] then last == rows && lastUsed == used
    else last == batches[|batches| - 1].After() && lastUsed == batches[|batches| - 1].used
  }

  lemma ChainGrows(rows: Stamps, used: set<nat>, batches: seq<Batch>, last: Stamps, lastUsed: set<nat>, b: Batch)
    requires Chained(rows, used, batches) && EndsWith(rows, used, batches, last, lastUsed)
    requires Interfered(last, lastUsed, b.before, b.used)
    ensures Chained(rows, used, batches + [b]) && EndsWith(rows, used, batches + [b], b.After(), b.used)
    ensures TotalGone(batches + [b]) == TotalGone(batches) + |b.gone|
  {
    assert (batches + [b])[..|batches|] == batches;
  }

  lemma GoneGrows(batches: seq<Batch>, n: nat)
    requires 0 < n <= |batches|
    ensures GoneBefore(batches, n) == GoneBefore(batches, n - 1) + batches[n - 1].gone
  {
  }

  /** What is gone stays away through whatever others do: keys are never handed out again. */
  lemma GoneStaysAway(gone: set<nat>, rows: Stamps, used: set<nat>, later: Stamps, usedLater: set<nat>)
    requires gone !! rows.Keys && gone <= used && Interfered(rows, used, later, usedLater)
    ensures gone !! later.Keys && gone <= usedLater
  {
    forall k | k in gone ensures k !in later {
      assert k in later.Keys * used ==> k in rows.Keys;
    }
  }

  /** No row is removed twice: what the batches removed are as many different rows as were counted. */
  lemma {:induction false} NoRowIsReapedTwice(rows: Stamps, used: set<nat>, batches: seq<Batch>, n: nat)
    requires Chained(rows, used, batches) && n <= |batches|
    requires forall i :: 0 <= i < |batches| ==> batches[i].gone <= batches[i].before.Keys
    ensures TotalGone(batches[..n]) == |GoneBefore(batches, n)|
    ensures n > 0 ==> GoneBefore(batches, n) !! batches[n - 1].After().Keys && GoneBefore(batches, n) <= batches[n - 1].used
  {
    if n == 0 {
      assert GoneBefore(batches, 0) == {};
    } else {
      NoRowIsReapedTwice(rows, used, batches, n - 1);
      assert batches[..n][..n - 1] == batches[..n - 1];
      GoneGrows(batches, n);
      if n > 1 {
        var was := batches[n - 2];
        GoneStaysAway(GoneBefore(batches, n - 1), was.After(), was.used, batches[n - 1].before, batches[n - 1].used);
      } else {
        assert GoneBefore(batches, 0) == {};
      }
      OneMoreBatch(GoneBefore(batches, n - 1), batches[n - 1]);
    }
  }

  /** Rows gone for good and the rows of a later statement are different rows. */
  lemma OneMoreBatch(gone: set<nat>, b: Batch)
    requires gone !! b.before.Keys && b.gone <= b.before.Keys
    ensures |gone + b.gone| == |gone| + |b.gone| && (gone + b.gone) !! b.After().Keys
  {
    assert gone !! b.gone;
  }
}
