/** How often an event is tried before it is dead, over every run of the bus. */
module OutboxRetries {
  import opened Prelude
  import opened Outbox

  // ---- What is counted ----

  ghost predicate Takes<P>(r: BusRun<P>, s: BusStep<P>, k: EventId) {
    Enabled(r.bus, s) && s.Claim? && k in s.ids && k in r.bus.table
  }

  ghost predicate Fails<P>(r: BusRun<P>, s: BusStep<P>, k: EventId) {
    Enabled(r.bus, s) && s.Fail? && s.row.eventId == k && k in r.bus.table
  }

  /** A lock that has run out is taken back. */
  ghost predicate TakesBack<P>(r: BusRun<P>, s: BusStep<P>, k: EventId) {
    && s.Reclaim? && k in r.bus.table && r.bus.table[k].status == Publishing
    && r.bus.table[k].lockedUntil.Some? && r.bus.table[k].lockedUntil.value < s.at
  }

  function Bit(b: bool): nat { if b then 1 else 0 }

  ghost function Claims<P>(steps: seq<BusStep<P>>, k: EventId): nat {
    if steps == [] then 0
    else Claims(steps[..|steps| - 1], k) + Bit(Takes(RunBus(steps[..|steps| - 1]), steps[|steps| - 1], k))
  }

  ghost function Failures<P>(steps: seq<BusStep<P>>, k: EventId): nat {
    if steps == [] then 0
    else Failures(steps[..|steps| - 1], k) + Bit(Fails(RunBus(steps[..|steps| - 1]), steps[|steps| - 1], k))
  }

  ghost function Reclaims<P>(steps: seq<BusStep<P>>, k: EventId): nat {
    if steps == [] then 0
    else Reclaims(steps[..|steps| - 1], k) + Bit(TakesBack(RunBus(steps[..|steps| - 1]), steps[|steps| - 1], k))
  }

  // ---- Failures that are reported while the row is still the reporter's ----

  /** The relay that reports the failure of k read the row as it stands, and nobody has requeued it since. */
  ghost predicate Current<P>(r: BusRun<P>, s: BusStep<P>, k: EventId, maxRetry: nat) {
    Fails(r, s, k) ==>
      && s.maxRetry == maxRetry && s.row.retryCount == r.bus.table[k].retryCount
      && (r.bus.table[k].status == Publishing || r.bus.table[k].status == Published)
  }

  ghost predicate AllCurrent<P>(steps: seq<BusStep<P>>, k: EventId, maxRetry: nat) {
    steps == [] || (AllCurrent(steps[..|steps| - 1], k, maxRetry)
                    && Current(RunBus(steps[..|steps| - 1]), steps[|steps| - 1], k, maxRetry))
  }

  /** How a row's count and status go with what was counted. */
  ghost predicate Tallied<P>(r: BusRun<P>, k: EventId, maxRetry: nat, claims: nat, failures: nat, reclaims: nat) {
    && (k !in r.committed ==> claims == failures == reclaims == 0)
    && failures <= maxRetry + 1 && claims <= maxRetry + 1 + reclaims
    && (forall c :: c in r.bus.memory.claims && c.1.eventId == k ==> c.1.retryCount <= maxRetry)
    && (k in r.bus.table ==>
          var row := r.bus.table[k];
          && k in r.committed && row.retryCount == failures
          && claims <= failures + reclaims + (if row.status == Publishing || row.status == Published then 1 else 0)
          && (row.status == Pending || row.status == Publishing ==> failures <= maxRetry)
          && (row.status == Dead ==> failures == maxRetry + 1))
  }

  lemma StepTallies<P>(r: BusRun<P>, s: BusStep<P>, k: EventId, maxRetry: nat, claims: nat, failures: nat, reclaims: nat)
    requires Tallied(r, k, maxRetry, claims, failures, reclaims) && Current(r, s, k, maxRetry)
    requires BusInvariant(r.bus, r.committed)
    ensures var v := if Fresh(r.committed, s) then BusRun(BusNext(r.bus, s), Committed(r.committed, r.bus, s)) else r;
      Tallied(v, k, maxRetry, claims + Bit(Takes(r, s, k)), failures + Bit(Fails(r, s, k)), reclaims + Bit(TakesBack(r, s, k)))
  {
    match s
    case Insert(id, _, _, _) =>
    case Reclaim(at) =>
    case Claim(w, ids, at, until) =>
    case Publish(w, row, accepted, reported) =>
    case MarkOne(w, id, at) =>
    case MarkBatch(w, ids, at) =>
    case Fail(w, row, limit, at) =>
    case Reap(ids, cutoff) =>
  }

  lemma {:induction false} RunTallies<P>(steps: seq<BusStep<P>>, k: EventId, maxRetry: nat)
    requires AllCurrent(steps, k, maxRetry)
    ensures Tallied(RunBus(steps), k, maxRetry, Claims(steps, k), Failures(steps, k), Reclaims(steps, k))
  {
    if steps != [] {
      RunTallies(steps[..|steps| - 1], k, maxRetry);
      NoEventVanishes(steps[..|steps| - 1]);
      StepTallies(RunBus(steps[..|steps| - 1]), steps[|steps| - 1], k, maxRetry,
                  Claims(steps[..|steps| - 1], k), Failures(steps[..|steps| - 1], k), Reclaims(steps[..|steps| - 1], k));
    }
  }

  /**
   * As long as failures are reported by relays that still hold the row, an event fails at most maxRetry + 1
   * times and is claimed at most that often, and once more for each lock that ran out; its row counts its
   * failures, it is dead with the last of them, and while it waits or is worked on it has a retry left.
   */
  lemma RetriesAreBounded<P>(steps: seq<BusStep<P>>, k: EventId, maxRetry: nat)
    requires AllCurrent(steps, k, maxRetry)
    ensures Failures(steps, k) <= maxRetry + 1 && Claims(steps, k) <= maxRetry + 1 + Reclaims(steps, k)
    ensures var t := RunBus(steps).bus.table;
      k in t ==>
        && t[k].retryCount == Failures(steps, k)
        && (t[k].status == Dead ==> Failures(steps, k) == maxRetry + 1)
        && (t[k].status == Pending || t[k].status == Publishing ==> Failures(steps, k) <= maxRetry)
  {
    RunTallies(steps, k, maxRetry);
  }

  // ---- One relay ----

  /** The rows of the latest claim whose failure was not reported yet; a new turn begins by taking back stale locks. */
  ghost function Open<P>(steps: seq<BusStep<P>>): set<ClaimedRow<P>> {
    if steps == [] then {} else OpenAfter(RunBus(steps[..|steps| - 1]), Open(steps[..|steps| - 1]), steps[|steps| - 1])
  }

  ghost function OpenAfter<P>(r: BusRun<P>, open: set<ClaimedRow<P>>, s: BusStep<P>): set<ClaimedRow<P>> {
    match s
    case Claim(_, ids, _, _) => set k | k in ids && k in r.bus.table :: AsClaimed(r.bus.table, k)
    case Reclaim(_) => {}
    case Fail(_, row, _, _) => open - {row}
    case _ => open
  }

  /** Only one relay is at work: it reports failures of the rows it claimed last, each at most once. */
  ghost predicate OneRelay<P>(steps: seq<BusStep<P>>, maxRetry: nat) {
    steps == [] ||
      var front, s := steps[..|steps| - 1], steps[|steps| - 1];
      && OneRelay(front, maxRetry)
      && (s.Fail? ==> s.maxRetry == maxRetry && s.row in Open(front))
      && (s.Claim? ==> Enabled(RunBus(front).bus, s))
  }

  /** Each open row stands as it was read, in work or published, and no two are of one event. */
  ghost predicate OpenStands<P>(r: BusRun<P>, open: set<ClaimedRow<P>>) {
    && (forall row :: row in open ==>
          && row.eventId in r.committed
          && (row.eventId in r.bus.table ==>
                var now := r.bus.table[row.eventId];
                now.retryCount == row.retryCount && (now.status == Publishing || now.status == Status.Published)))
    && (forall row, other :: row in open && other in open && row.eventId == other.eventId ==> row == other)
  }

  lemma StepKeepsOpen<P>(r: BusRun<P>, open: set<ClaimedRow<P>>, s: BusStep<P>)
    requires OpenStands(r, open) && BusInvariant(r.bus, r.committed)
    requires (s.Fail? ==> s.row in open) && (s.Claim? ==> Enabled(r.bus, s))
    ensures var v := if Fresh(r.committed, s) then BusRun(BusNext(r.bus, s), Committed(r.committed, r.bus, s)) else r;
      OpenStands(v, OpenAfter(r, open, s))
  {
    match s
    case Insert(id, _, _, _) =>
    case Reclaim(at) =>
    case Claim(w, ids, at, until) =>
    case Publish(w, row, accepted, reported) =>
    case MarkOne(w, id, at) =>
    case MarkBatch(w, ids, at) =>
    case Fail(w, row, limit, at) =>
    case Reap(ids, cutoff) =>
  }

  lemma {:induction false} OneRelayIsCurrent<P>(steps: seq<BusStep<P>>, k: EventId, maxRetry: nat)
    requires OneRelay(steps, maxRetry)
    ensures AllCurrent(steps, k, maxRetry) && OpenStands(RunBus(steps), Open(steps))
  {
    if steps != [] {
      var front, s := steps[..|steps| - 1], steps[|steps| - 1];
      OneRelayIsCurrent(front, k, maxRetry);
      NoEventVanishes(front);
      StepKeepsOpen(RunBus(front), Open(front), s);
    }
  }

  /**
   * With one relay at work, whatever crashes, commits, late marks and reaping come between its steps, every
   * event is claimed at most maxRetry + 1 times, and once more for each of its locks that ran out.
   */
  lemma OneRelayGivesUp<P>(steps: seq<BusStep<P>>, k: EventId, maxRetry: nat)
    requires OneRelay(steps, maxRetry)
    ensures Failures(steps, k) <= maxRetry + 1 && Claims(steps, k) <= maxRetry + 1 + Reclaims(steps, k)
    ensures var t := RunBus(steps).bus.table; k in t && t[k].status == Dead ==> Failures(steps, k) == t[k].retryCount == maxRetry + 1
  {
    OneRelayIsCurrent(steps, k, maxRetry);
    RetriesAreBounded(steps, k, maxRetry);
  }

  /** A failure reported late, from a claim whose lock ran out, brings even a dead event back. */
  lemma LateFailureRevives<P>(b: Bus<P>, worker: int, row: ClaimedRow<P>, maxRetry: nat, at: Time)
    requires (worker, row) in b.memory.claims && row.eventId in b.table && b.table[row.eventId].status == Dead
    ensures var t := BusNext(b, Fail(worker, row, maxRetry, at)).table;
      t[row.eventId].status == Pending <==> row.retryCount < maxRetry
  {
  }
}
