/** The outbox table, the relay that drains it and the reaper that trims it. */
module Outbox {
  import opened Prelude

  type Time = int
  type EventId = nat

  const SECOND: Time := 1_000_000_000
  const BACKOFF_BASE: Time := 5 * SECOND

  datatype Status = Pending | Publishing | Published | Dead

  datatype OutboxRow<P> = OutboxRow(
    outboxId: nat, payload: P, status: Status, retryCount: nat, availableAt: Time,
    lockedBy: Option<int>, lockedUntil: Option<Time>, publishedAt: Option<Time>)

  type Table<P> = map<EventId, OutboxRow<P>>

  function NewRow<P>(outboxId: nat, payload: P, now: Time): OutboxRow<P> {
    OutboxRow(outboxId, payload, Pending, 0, now, None, None, None)
  }

  // ---- The statements the relay and the reaper run ----

  predicate Stale<P>(row: OutboxRow<P>, now: Time) {
    row.status == Publishing && row.lockedUntil.Some? && row.lockedUntil.value < now
  }

  function Reclaimed<P>(t: Table<P>, now: Time): Table<P> {
    map k | k in t :: if Stale(t[k], now) then t[k].(status := Pending, lockedBy := None, lockedUntil := None) else t[k]
  }

  predicate Eligible<P>(t: Table<P>, locked: set<EventId>, now: Time, k: EventId) {
    k in t && k !in locked && t[k].status == Pending && t[k].availableAt <= now
  }

  function Claimed<P>(t: Table<P>, ids: set<EventId>, worker: int, until: Time): Table<P> {
    map k | k in t ::
      if k in ids then t[k].(status := Publishing, lockedBy := Some(worker), lockedUntil := Some(until)) else t[k]
  }

  function PublishedRow<P>(row: OutboxRow<P>, now: Time): OutboxRow<P> {
    row.(status := Published, publishedAt := Some(now), lockedBy := None, lockedUntil := None)
  }

  /** publishOne marks by key alone. */
  function MarkedPublished<P>(t: Table<P>, k: EventId, now: Time): Table<P> {
    if k in t then t[k := PublishedRow(t[k], now)] else t
  }

  predicate OwnedBy<P>(row: OutboxRow<P>, worker: int) { row.status == Publishing && row.lockedBy == Some(worker) }

  /** markPublishedBatch marks only rows this worker still holds. */
  function MarkedPublishedBatch<P>(t: Table<P>, ids: set<EventId>, worker: int, now: Time): Table<P> {
    map k | k in t :: if k in ids && OwnedBy(t[k], worker) then PublishedRow(t[k], now) else t[k]
  }

  /** The row after a failed publish, computed from the retry count read when it was claimed. */
  function RetriedRow<P>(row: OutboxRow<P>, readCount: nat, maxRetry: nat, now: Time): OutboxRow<P> {
    if readCount + 1 > maxRetry then
      row.(status := Dead, retryCount := readCount + 1, lockedBy := None, lockedUntil := None)
    else
      row.(status := Pending, retryCount := readCount + 1, availableAt := now + (readCount + 1) * BACKOFF_BASE,
           lockedBy := None, lockedUntil := None)
  }

  function MarkedRetryOrDead<P>(t: Table<P>, k: EventId, readCount: nat, maxRetry: nat, now: Time): Table<P> {
    if k in t then t[k := RetriedRow(t[k], readCount, maxRetry, now)] else t
  }

  predicate Expired<P>(row: OutboxRow<P>, cutoff: Time) {
    row.status == Published && row.publishedAt.Some? && row.publishedAt.value < cutoff
  }

  function Reaped<P>(t: Table<P>, ids: set<EventId>, cutoff: Time): Table<P> {
    map k | k in t && !(k in ids && Expired(t[k], cutoff)) :: t[k]
  }

  /** The reaper's statement takes exactly the rows handed to it that were published before the cutoff. */
  lemma ReapsExactly<P>(t: Table<P>, ids: set<EventId>, cutoff: Time)
    ensures var after := Reaped(t, ids, cutoff);
      && (forall k :: k in after ==> k in t && after[k] == t[k])
      && (forall k :: k in t && k !in after <==>
            k in t && k in ids && t[k].status == Published && t[k].publishedAt.Some? && t[k].publishedAt.value < cutoff)
  {
  }

  /** publishOne marks its row by key, whoever holds it; the batch statement marks the rows its worker still holds. */
  lemma MarksExactly<P>(t: Table<P>, k: EventId, ids: set<EventId>, worker: int, now: Time)
    ensures MarkedPublished(t, k, now).Keys == t.Keys == MarkedPublishedBatch(t, ids, worker, now).Keys
    ensures forall q :: q in t ==>
      var done := t[q].(status := Published, publishedAt := Some(now), lockedBy := None, lockedUntil := None);
      && MarkedPublished(t, k, now)[q] == (if q == k then done else t[q])
      && MarkedPublishedBatch(t, ids, worker, now)[q] ==
           (if q in ids && t[q].status == Publishing && t[q].lockedBy == Some(worker) then done else t[q])
  {
  }

  /** Stale locks go back to waiting, claimed rows come under their worker's lock until its end; nothing else moves. */
  lemma LocksExactly<P>(t: Table<P>, ids: set<EventId>, worker: int, now: Time, until: Time)
    ensures Reclaimed(t, now).Keys == t.Keys == Claimed(t, ids, worker, until).Keys
    ensures forall q :: q in t ==>
      && Reclaimed(t, now)[q] ==
           (if t[q].status == Publishing && t[q].lockedUntil.Some? && t[q].lockedUntil.value < now
            then t[q].(status := Pending, lockedBy := None, lockedUntil := None) else t[q])
      && Claimed(t, ids, worker, until)[q] ==
           (if q in ids then t[q].(status := Publishing, lockedBy := Some(worker), lockedUntil := Some(until)) else t[q])
  {
  }

  // ---- Any number of relays, crashes and late writes over one table ----

  /** A row as a relay read it in its claim transaction. */
  datatype ClaimedRow<P> = ClaimedRow(eventId: EventId, payload: P, retryCount: nat)

  /** What relays hold in memory: the rows they claimed, and publishes reported as done. */
  datatype RelayMemory<P(==)> = RelayMemory(claims: set<(int, ClaimedRow<P>)>, acked: set<(int, EventId)>)

  datatype Bus<P(==)> = Bus(table: Table<P>, broker: set<(EventId, P)>, memory: RelayMemory<P>)

  datatype BusStep<P> =
    | Insert(id: EventId, outboxId: nat, payload: P, at: Time)
    | Reclaim(at: Time)
    | Claim(worker: int, ids: set<EventId>, at: Time, until: Time)
    /** The broker may accept and still report an error; it never reports success without accepting. */
    | Publish(worker: int, row: ClaimedRow<P>, accepted: bool, reported: bool)
    | MarkOne(worker: int, id: EventId, at: Time)
    | MarkBatch(worker: int, ids: set<EventId>, at: Time)
    | Fail(worker: int, row: ClaimedRow<P>, maxRetry: nat, at: Time)
    | Reap(ids: set<EventId>, cutoff: Time)

  ghost predicate Enabled<P>(b: Bus<P>, s: BusStep<P>) {
    match s
    case Insert(id, _, _, _) => id !in b.table
    case Claim(_, ids, at, _) => forall k :: k in ids ==> Eligible(b.table, {}, at, k)
    case Publish(w, row, accepted, reported) => (reported ==> accepted) && (w, row) in b.memory.claims
    case MarkOne(w, id, _) => (w, id) in b.memory.acked
    case MarkBatch(w, ids, _) => forall k :: k in ids ==> (w, k) in b.memory.acked
    case Fail(w, row, _, _) => (w, row) in b.memory.claims
    case _ => true
  }

  function AsClaimed<P>(t: Table<P>, k: EventId): ClaimedRow<P>
    requires k in t
  {
    ClaimedRow(k, t[k].payload, t[k].retryCount)
  }

  ghost function BusNext<P>(b: Bus<P>, s: BusStep<P>): Bus<P> {
    if !Enabled(b, s) then b
    else
      match s
      case Insert(id, outboxId, payload, at) => b.(table := b.table[id := NewRow(outboxId, payload, at)])
      case Reclaim(at) => b.(table := Reclaimed(b.table, at))
      case Claim(w, ids, at, until) =>
        b.(table := Claimed(b.table, ids, w, until),
           memory := b.memory.(claims := b.memory.claims
             + set k | k in ids && k in b.table :: (w, AsClaimed(b.table, k))))
      case Publish(w, row, accepted, reported) =>
        // The payload travels with the claim; the row may be gone by now.
        b.(broker := if accepted then b.broker + {(row.eventId, row.payload)} else b.broker,
           memory := if reported then b.memory.(acked := b.memory.acked + {(w, row.eventId)}) else b.memory)
      case MarkOne(w, id, at) => b.(table := MarkedPublished(b.table, id, at))
      case MarkBatch(w, ids, at) => b.(table := MarkedPublishedBatch(b.table, ids, w, at))
      case Fail(w, row, maxRetry, at) => b.(table := MarkedRetryOrDead(b.table, row.eventId, row.retryCount, maxRetry, at))
      case Reap(ids, cutoff) => b.(table := Reaped(b.table, ids, cutoff))
  }

  /**
   * payloadOf is every row ever committed. Rows and claims carry the payload they were committed with; what
   * a relay was told is published, and every row marked so, is in the broker; a committed row that
   * left the table is in the broker; and the broker holds nothing that was never committed.
   */
  ghost predicate BusInvariant<P>(b: Bus<P>, payloadOf: map<EventId, P>) {
    && (forall k :: k in b.table ==> k in payloadOf && b.table[k].payload == payloadOf[k])
    && (forall c :: c in b.memory.claims ==> c.1.eventId in payloadOf && c.1.payload == payloadOf[c.1.eventId])
    && (forall w, k :: (w, k) in b.memory.acked ==> k in payloadOf && (k, payloadOf[k]) in b.broker)
    && (forall k :: k in b.table && b.table[k].status == Published ==> (k, payloadOf[k]) in b.broker)
    && (forall k :: k in payloadOf && k !in b.table ==> (k, payloadOf[k]) in b.broker)
  }

  ghost function Committed<P>(payloadOf: map<EventId, P>, b: Bus<P>, s: BusStep<P>): map<EventId, P> {
    if s.Insert? && Enabled(b, s) then payloadOf[s.id := s.payload] else payloadOf
  }

  /** Event identifiers are never reused, also not after the reaper removed a row. */
  predicate Fresh<P>(payloadOf: map<EventId, P>, s: BusStep<P>) { s.Insert? ==> s.id !in payloadOf }

  lemma BusStepKeepsInvariant<P>(b: Bus<P>, s: BusStep<P>, payloadOf: map<EventId, P>)
    requires BusInvariant(b, payloadOf) && Fresh(payloadOf, s)
    ensures BusInvariant(BusNext(b, s), Committed(payloadOf, b, s))
    ensures b.broker <= BusNext(b, s).broker
  {
    if Enabled(b, s) {
      var c := BusNext(b, s);
      var q := Committed(payloadOf, b, s);
      match s
      case Insert(id, _, _, _) =>
      case Reclaim(at) =>
      case Claim(w, ids, at, until) =>
      case Publish(w, row, accepted, reported) =>
        if reported {
          assert (row.eventId, payloadOf[row.eventId]) in c.broker;
        }
      case MarkOne(w, id, at) =>
      case MarkBatch(w, ids, at) =>
        forall k | k in c.table && c.table[k].status == Published ensures (k, q[k]) in c.broker {
          if k in ids {
            assert (w, k) in b.memory.acked;
          }
        }
      case Fail(w, row, maxRetry, at) =>
      case Reap(ids, cutoff) =>
        forall k | k in q && k !in c.table ensures (k, q[k]) in c.broker {
          if k in b.table {
            assert b.table[k].status == Published;
          }
        }
    }
  }

  // ---- Whole runs ----

  datatype BusRun<P(==)> = BusRun(bus: Bus<P>, committed: map<EventId, P>)

  ghost function RunBus<P>(steps: seq<BusStep<P>>): BusRun<P> {
    if steps == [] then BusRun(Bus(map[], {}, RelayMemory({}, {})), map[])
    else
      var before := RunBus(steps[..|steps| - 1]);
      var s := steps[|steps| - 1];
      if Fresh(before.committed, s) then
        BusRun(BusNext(before.bus, s), Committed(before.committed, before.bus, s))
      else before
  }

  /**
   * For every interleaving of commits, relays, crashes, late marks and reaping: each event ever
   * committed is still in the table with its payload, or the broker accepted that payload; a row
   * marked PUBLISHED was accepted; and the broker holds committed payloads only.
   */
  lemma {:induction false} NoEventVanishes<P>(steps: seq<BusStep<P>>)
    ensures var r := RunBus(steps);
      && (forall k :: k in r.committed ==>
            || (k in r.bus.table && r.bus.table[k].payload == r.committed[k])
            || (k, r.committed[k]) in r.bus.broker)
      && (forall k :: k in r.bus.table && r.bus.table[k].status == Published ==>
            (k, r.bus.table[k].payload) in r.bus.broker)
      && (forall k, p :: (k, p) in r.bus.broker ==> k in r.committed && p == r.committed[k])
    ensures BusInvariant(RunBus(steps).bus, RunBus(steps).committed)
  {
    if steps != [] {
      NoEventVanishes(steps[..|steps| - 1]);
      var before := RunBus(steps[..|steps| - 1]);
      var s := steps[|steps| - 1];
      if Fresh(before.committed, s) {
        BusStepKeepsInvariant(before.bus, s, before.committed);
      }
    }
  }
}
