/** At-least-once consumption of one partition: retry in place, park, then commit the offset. */
module EventConsumer {
  import opened Prelude
  import opened ConsumerDedup

  type EventId = nat

  /** A store of dedup rows: the consumer's own, or the one beside the aggregate an event concerns. */
  type StoreId = nat

  const OWN_STORE: StoreId := 0

  /**
   * A message: no event stands for bytes that are no event envelope, or one without an event_id; no store
   * for bytes that a resolver of dedup stores cannot make out.
   */
  datatype Message = Message(event: Option<EventId>, store: Option<StoreId>)

  datatype Failure = InvalidEnvelope | Unresolved | Transient

  datatype Verdict = Handled | Parked(attempts: nat) | Cancelled

  /** retryMin doubled attempt - 1 times. */
  function Doubled(retryMin: nat, attempt: nat): nat {
    if attempt <= 1 then retryMin else 2 * Doubled(retryMin, attempt - 1)
  }

  lemma {:induction false} DoubledGrows(retryMin: nat, a: nat, b: nat)
    requires a <= b
    ensures Doubled(retryMin, a) <= Doubled(retryMin, b)
    decreases b
  {
    if a < b {
      DoubledGrows(retryMin, a, b - 1);
    }
  }

  /**
   * The doubling loop computes the capped exponential delay exactly, and no intermediate value ever
   * exceeds retryMax, so the duration arithmetic cannot overflow.
   */
  method RetryDelay(retryMin: nat, retryMax: nat, attempt: nat) returns (delay: nat)
    ensures delay == Min(Doubled(retryMin, attempt), retryMax)
  {
    delay := retryMin;
    var current := 1;
    while current < attempt && delay < retryMax
      invariant 1 <= current
      invariant current <= attempt || current == 1
      invariant delay == Doubled(retryMin, current)
      invariant delay <= retryMax || delay == retryMin
    {
      if delay > retryMax / 2 {
        DoubledGrows(retryMin, current + 1, attempt);
        return retryMax;
      }
      delay := delay * 2;
      current := current + 1;
    }
    if current < attempt {
      DoubledGrows(retryMin, current, attempt);
    }
    if delay > retryMax {
      return retryMax;
    }
  }

  // ---- What becomes of one partition ----

  /**
   * `committed` is the group's offset, None before its first commit; `handled` are the events whose
   * Handle call succeeded at some time, `parked` the messages with a failure record.
   */
  datatype Progress = Progress(
    partition: seq<Message>, position: nat, committed: Option<nat>, handled: set<EventId>, parked: set<nat>)

  predicate SettledIn(p: Progress, i: nat) {
    i < |p.partition| && (i in p.parked || (p.partition[i].event.Some? && p.partition[i].event.value in p.handled))
  }

  predicate AllSettled(p: Progress, n: nat) { forall i :: 0 <= i < n ==> SettledIn(p, i) }

  /** What committing is for: the offset has passed settled messages only. */
  predicate Promise(p: Progress) { p.committed.Some? ==> AllSettled(p, p.committed.value) }

  predicate InBounds(p: Progress) {
    p.position <= |p.partition| && (p.committed.Some? ==> p.committed.value <= p.position)
  }

  /** Everything the reader is past, and so everything before the offset, is settled. */
  predicate Covered(p: Progress) { InBounds(p) && AllSettled(p, p.position) }

  datatype Move =
    | Handle
    | Park
    | Pass(commits: bool)
    | Restart
    | Append(message: Message)

  predicate CanMove(p: Progress, m: Move) {
    match m
    case Handle => p.position < |p.partition| && p.partition[p.position].event.Some?
    case Park => p.position < |p.partition|
    case Pass(_) => SettledIn(p, p.position)
    case _ => true
  }

  /** A reader resumes at the group's offset; a group without one starts at the END of the partition. */
  function Restarted(p: Progress): Progress {
    p.(position := if p.committed.Some? then p.committed.value else |p.partition|)
  }

  function Next(p: Progress, m: Move): Progress {
    if !CanMove(p, m) then p
    else
      match m
      case Handle => p.(handled := p.handled + {p.partition[p.position].event.value})
      case Park => p.(parked := p.parked + {p.position})
      case Pass(commits) => p.(position := p.position + 1, committed := if commits then Some(p.position + 1) else p.committed)
      case Restart => Restarted(p)
      case Append(message) => p.(partition := p.partition + [message])
  }

  function RunFrom(p: Progress, moves: seq<Move>): Progress
    decreases |moves|
  {
    if moves == [] then p else RunFrom(Next(p, moves[0]), moves[1..])
  }

  /** The first reader of a group: nothing committed, nothing handled. */
  function FirstStart(partition: seq<Message>): Progress { Restarted(Progress(partition, 0, None, {}, {})) }

  /** Known before the restart: an offset is committed, or nothing in the partition is unsettled. */
  predicate SafeRestart(p: Progress) { p.committed.Some? || AllSettled(p, |p.partition|) }

  predicate SafeMoves(p: Progress, moves: seq<Move>)
    decreases |moves|
  {
    moves == [] || ((moves[0].Restart? ==> SafeRestart(p)) && SafeMoves(Next(p, moves[0]), moves[1..]))
  }

  lemma {:induction false} RunFromAppend(p: Progress, first: seq<Move>, second: seq<Move>)
    ensures RunFrom(p, first + second) == RunFrom(RunFrom(p, first), second)
    decreases |first|
  {
    if first == [] {
      assert first + second == second;
    } else {
      assert (first + second)[1..] == first[1..] + second;
      RunFromAppend(Next(p, first[0]), first[1..], second);
    }
  }

  lemma MoveKeepsCovered(p: Progress, m: Move)
    requires Covered(p) && (m.Restart? ==> SafeRestart(p))
    ensures Covered(Next(p, m))
  {
    var q := Next(p, m);
    forall i | 0 <= i < q.position ensures SettledIn(q, i) {
      assert SettledIn(p, i);
    }
  }

  /** While no restart is unsafe, the offset passes settled messages only, whatever else happens. */
  lemma {:induction false} SafeRunsKeepThePromise(p: Progress, moves: seq<Move>)
    requires Covered(p) && SafeMoves(p, moves)
    ensures Covered(RunFrom(p, moves)) && Promise(RunFrom(p, moves))
    decreases |moves|
  {
    if moves != [] {
      MoveKeepsCovered(p, moves[0]);
      SafeRunsKeepThePromise(Next(p, moves[0]), moves[1..]);
    } else if p.committed.Some? {
      forall i | 0 <= i < p.committed.value ensures SettledIn(p, i) {}
    }
  }

  /** After an unsafe restart one more message, parked and committed, takes the offset past an unsettled one. */
  lemma UnsafeRestartsBreakThePromise(p: Progress) returns (moves: seq<Move>)
    requires InBounds(p) && !SafeRestart(p)
    ensures SafeMoves(Restarted(p), moves) && !Promise(RunFrom(Restarted(p), moves))
  {
    var n := |p.partition|;
    var i: nat :| i < n && !SettledIn(p, i);
    moves := [Append(Message(None, None)), Park, Pass(true)];
    var p0 := Restarted(p);
    var p1 := Next(p0, Append(Message(None, None)));
    var p2 := Next(p1, Park);
    RunFromCons(p0, Append(Message(None, None)), [Park, Pass(true)]);
    RunFromCons(p1, Park, [Pass(true)]);
    RunFromCons(p2, Pass(true), []);
    assert moves[1..] == [Park, Pass(true)] && [Park, Pass(true)][1..] == [Pass(true)] && [Pass(true)][1..] == [];
    assert p2.partition == p.partition + [Message(None, None)] && !SettledIn(Next(p2, Pass(true)), i);
  }

  /**
   * The offset keeps its promise on every continuation after a restart if and only if, before it, an
   * offset was committed or nothing was unsettled.
   */
  lemma RestartKeepsThePromiseExactly(p: Progress)
    requires Covered(p)
    ensures SafeRestart(p) <==>
      forall moves :: SafeMoves(Restarted(p), moves) ==> Promise(RunFrom(Restarted(p), moves))
  {
    if SafeRestart(p) {
      MoveKeepsCovered(p, Restart);
      forall moves | SafeMoves(Restarted(p), moves) ensures Promise(RunFrom(Restarted(p), moves)) {
        SafeRunsKeepThePromise(Restarted(p), moves);
      }
    } else {
      var moves := UnsafeRestartsBreakThePromise(p);
    }
  }

  /** So a group may only be started for the first time on an empty partition. */
  lemma FirstStartKeepsThePromiseExactly(partition: seq<Message>)
    ensures partition == [] <==>
      forall moves :: SafeMoves(FirstStart(partition), moves) ==> Promise(RunFrom(FirstStart(partition), moves))
  {
    var p := Progress(partition, 0, None, {}, {});
    assert SafeRestart(p) <==> partition == [] by {
      if partition != [] { assert !SettledIn(p, 0); }
    }
    assert FirstStart(partition) == Restarted(p);
    RestartKeepsThePromiseExactly(p);
    if forall moves :: SafeMoves(FirstStart(partition), moves) ==> Promise(RunFrom(FirstStart(partition), moves)) {
      forall moves | SafeMoves(Restarted(p), moves) ensures Promise(RunFrom(Restarted(p), moves)) {}
    }
  }

  /** What an unsafe restart jumped over is never fetched again. */
  lemma {:induction false} SkippedIsNeverFetched(p: Progress, moves: seq<Move>, n: nat)
    requires InBounds(p) && n <= p.position && (p.committed.Some? ==> n <= p.committed.value)
    ensures n <= RunFrom(p, moves).position
    decreases |moves|
  {
    if moves != [] { SkippedIsNeverFetched(Next(p, moves[0]), moves[1..], n); }
  }

  /** The event of a message that was fetched, but whose first commit a crash prevented, can be lost. */
  lemma CrashBeforeTheFirstCommit(first: Message, second: Message, third: Message)
    ensures var p := RunFrom(FirstStart([]), [Append(first), Append(second), Restart, Append(third), Park, Pass(true)]);
      p.committed == Some(3) && !SettledIn(p, 0) && !SettledIn(p, 1)
  {
    var p0 := FirstStart([]);
    RunFromCons(p0, Append(first), [Append(second), Restart, Append(third), Park, Pass(true)]);
    var p1 := Next(p0, Append(first));
    RunFromCons(p1, Append(second), [Restart, Append(third), Park, Pass(true)]);
    var p2 := Next(p1, Append(second));
    RunFromCons(p2, Restart, [Append(third), Park, Pass(true)]);
    var p3 := Next(p2, Restart);
    RunFromCons(p3, Append(third), [Park, Pass(true)]);
    var p4 := Next(p3, Append(third));
    RunFromCons(p4, Park, [Pass(true)]);
    RunFromCons(Next(p4, Park), Pass(true), []);
    assert p4 == Progress([first, second, third], 2, None, {}, {});
  }

  lemma RunFromCons(p: Progress, m: Move, rest: seq<Move>)
    ensures RunFrom(p, [m] + rest) == RunFrom(Next(p, m), rest)
  {
    assert ([m] + rest)[1..] == rest;
  }

  /** How often a run handles event e. */
  function Handlings(p: Progress, moves: seq<Move>, e: EventId): nat
    decreases |moves|
  {
    if moves == [] then 0
    else
      Bit(moves[0].Handle? && CanMove(p, moves[0]) && p.partition[p.position].event.value == e)
      + Handlings(Next(p, moves[0]), moves[1..], e)
  }

  lemma {:induction false} HandlingsAppend(p: Progress, first: seq<Move>, second: seq<Move>, e: EventId)
    ensures Handlings(p, first + second, e) == Handlings(p, first, e) + Handlings(RunFrom(p, first), second, e)
    decreases |first|
  {
    if first == [] {
      assert first + second == second;
    } else {
      assert (first + second)[1..] == first[1..] + second;
      HandlingsAppend(Next(p, first[0]), first[1..], second, e);
    }
  }

  // ---- The consumer ----

  /** The projector's calls of a run, and what the table of consumed events made of them. */
  ghost predicate Deduplicated(consumed: set<Row>, p: Progress, moves: seq<Move>, acts: seq<Act>, consumed': set<Row>) {
    && Legal(consumed, acts) && consumed' == Replay(consumed, acts)
    && forall e :: Handlings(p, moves, e) == HandlesOfEvent(acts, e)
  }

  lemma DeduplicatedAppend(c0: set<Row>, p: Progress, moves: seq<Move>, acts: seq<Act>, c1: set<Row>,
                           more: seq<Move>, moreActs: seq<Act>, c2: set<Row>)
    requires Deduplicated(c0, p, moves, acts, c1) && Deduplicated(c1, RunFrom(p, moves), more, moreActs, c2)
    ensures Deduplicated(c0, p, moves + more, acts + moreActs, c2)
    ensures RunFrom(p, moves + more) == RunFrom(RunFrom(p, moves), more)
  {
    RunFromAppend(p, moves, more);
    ReplayAppend(c0, acts, moreActs);
    forall e ensures Handlings(p, moves + more, e) == HandlesOfEvent(acts + moreActs, e) {
      HandlingsAppend(p, moves, more, e);
      CountsAppend(acts, moreActs, (OWN_STORE, e));
    }
  }

  /** Moves that handle nothing leave the table as it was. */
  lemma SilentMoves(c0: set<Row>, p: Progress, moves: seq<Move>, acts: seq<Act>, c1: set<Row>, more: seq<Move>)
    requires Deduplicated(c0, p, moves, acts, c1) && forall e :: Handlings(RunFrom(p, moves), more, e) == 0
    ensures Deduplicated(c0, p, moves + more, acts, c1)
    ensures RunFrom(p, moves + more) == RunFrom(RunFrom(p, moves), more)
  {
    assert acts + [] == acts;
    DeduplicatedAppend(c0, p, moves, acts, c1, more, [], c1);
  }

  lemma PassingHandlesNothing(p: Progress, commits: bool)
    ensures RunFrom(p, [Pass(commits)]) == Next(p, Pass(commits)) && forall e :: Handlings(p, [Pass(commits)], e) == 0
  {
    assert [Pass(commits)][1..] == [];
  }

  /** Moves of a reader that runs on: it handles, parks and passes. */
  predicate RunsOn(moves: seq<Move>) { forall i :: 0 <= i < |moves| ==> moves[i].Handle? || moves[i].Park? || moves[i].Pass? }

  /**
   * One consumer of one partition with its projector; `consumed` rows, each in a store, may be reaped. With
   * `resolves` the store is looked up for every message, before anything else.
   */
  class KafkaConsumer {
    var partition: seq<Message>
    var position: nat
    var committed: Option<nat>
    var consumed: set<(StoreId, EventId)>
    ghost var handled: set<EventId>
    var parked: set<nat>
    const maxTries: nat
    const resolves: bool

    function StoreFor(m: Message): Option<StoreId> { if resolves then m.store else Some(OWN_STORE) }

    /** The dedup row of a message, if it has a store and an event. */
    function RowFor(m: Message): Option<Row> {
      if StoreFor(m).Some? && m.event.Some? then Some((StoreFor(m).value, m.event.value)) else None
    }

    /** The acts are calls for this message alone. */
    ghost predicate CallsFor(acts: seq<Act>, m: Message) { forall k :: 0 <= k < |acts| ==> acts[k].Call? && RowFor(m) == Some(acts[k].row) }

    /** Every message of the row's event that has a store has this one. */
    ghost predicate KnownToOneStore(row: Row)
      reads this
    {
      forall m :: m in partition && m.event == Some(row.1) && StoreFor(m).Some? ==> StoreFor(m).value == row.0
    }

    ghost predicate CallsAreForMessages(acts: seq<Act>)
      reads this
    {
      forall k :: 0 <= k < |acts| && acts[k].Call? ==> exists m :: m in partition && RowFor(m) == Some(acts[k].row)
    }

    /** Bytes that no retry can repair: the store is found, and the envelope is malformed. */
    predicate Hopeless(m: Message) { StoreFor(m).Some? && m.event.None? }

    ghost function Content(): Progress
      reads this
    {
      Progress(partition, position, committed, handled, parked)
    }

    /** The reader of a new group: it has no offset, so it starts at the end. */
    constructor (partition: seq<Message>, maxTries: nat, resolves: bool)
      requires maxTries > 0
      ensures Valid() && Content() == FirstStart(partition) && this.maxTries == maxTries && this.resolves == resolves
    {
      this.partition, position, committed := partition, |partition|, None;
      this.maxTries, this.resolves := maxTries, resolves;
      consumed, parked, handled := {}, {}, {};
    }

    ghost predicate Valid()
      reads this
    {
      maxTries > 0 && InBounds(Content()) && forall c :: c in consumed ==> c.1 in handled
    }

    /**
     * Handle is called unless the event's row is there; a crash or error may follow a successful call, and a
     * mark that reports an error may have been written or not.
     */
    method ProcessOnce() returns (failure: Option<Failure>, ghost moves: seq<Move>, ghost acts: seq<Act>)
      requires Valid() && position < |partition|
      modifies this
      ensures Valid() && Content() == RunFrom(old(Content()), moves) && (moves == [] || moves == [Handle])
      ensures partition == old(partition) && position == old(position) && committed == old(committed) && parked == old(parked)
      ensures failure.None? ==> partition[position].event.Some? && partition[position].event.value in handled
      ensures StoreFor(partition[position]).None? <==> failure == Some(Unresolved)
      ensures Hopeless(partition[position]) <==> failure == Some(InvalidEnvelope)
      ensures var row := RowFor(partition[position]);
        && (row.None? || row.value in old(consumed) ==> acts == [] && consumed == old(consumed))
        && (row.Some? ==> consumed == old(consumed) || consumed == old(consumed) + {row.value})
        && (row.Some? && row.value in old(consumed) ==> failure.None? || failure == Some(Transient))
        && (failure.None? ==> row.Some? && row.value in consumed)
      ensures failure == Some(Unresolved) <==> resolves && partition[position].store.None?
      ensures forall row :: row in consumed && row !in old(consumed) ==>
        partition[position].event == Some(row.1) && (if resolves then partition[position].store == Some(row.0) else row.0 == 0)
      ensures acts == [] ==> moves == []
      ensures Deduplicated(old(consumed), old(Content()), moves, acts, consumed) && CallsFor(acts, partition[position]) && |acts| <= 1
      ensures moves == [Handle] ==>
        acts != [] && acts[0].outcome == (if RowFor(partition[position]).value in consumed then Marked else Unmarked)
      ensures moves == [] && acts != [] ==> acts[0].outcome == Failed && failure == Some(Transient)
    {
      moves, acts := [], [];
      var m := partition[position];
      var store := StoreFor(m);
      if store.None? {
        return Some(Unresolved), moves, acts;
      }
      if m.event.None? {
        return Some(InvalidEnvelope), moves, acts;
      }
      var row := (store.value, m.event.value);
      var lookupFails: bool, handleFails: bool, markFails: bool, markArrives: bool := *, *, *, *;
      if lookupFails {
        return Some(Transient), moves, acts;
      }
      if row in consumed {
        return None, moves, acts;
      }
      if handleFails {
        acts := [Call(row, Failed)];
        assert acts[..0] == [];
        return Some(Transient), moves, acts;
      }
      handled := handled + {m.event.value};
      moves := [Handle];
      assert [Handle][1..] == [];
      if !markFails || markArrives {
        consumed := consumed + {row};
      }
      acts := [Call(row, if !markFails || markArrives then Marked else Unmarked)];
      assert acts[..0] == [];
      return if markFails then Some(Transient) else None, moves, acts;
    }

    /** Retries the failure store until it takes the record or the context ends. */
    method RecordFailure() returns (stored: bool, ghost moves: seq<Move>)
      requires Valid() && position < |partition|
      modifies this
      ensures Valid() && consumed == old(consumed) && Content() == RunFrom(old(Content()), moves)
      ensures moves == if stored then [Park] else []
      ensures forall e :: Handlings(old(Content()), moves, e) == 0
    {
      stored, moves := *, [];
      if stored {
        parked := parked + {position};
        moves := [Park];
        assert [Park][1..] == [];
      }
    }

    /**
     * Processes the message at the reader without fetching again: a failure is retried in place up to
     * maxTries, also one to find the store; only a malformed envelope whose store was found is parked at
     * once; and a parked verdict means the failure record is stored.
     */
    method ProcessCurrent() returns (verdict: Verdict, ghost moves: seq<Move>, ghost acts: seq<Act>)
      requires Valid() && position < |partition|
      modifies this
      ensures Valid() && Content() == RunFrom(old(Content()), moves) && RunsOn(moves)
      ensures partition == old(partition) && position == old(position) && committed == old(committed)
      ensures verdict.Handled? || verdict.Parked? ==> SettledIn(Content(), position)
      ensures verdict.Handled? ==> parked == old(parked) && partition[position].event.Some?
      ensures verdict.Parked? ==> position in parked
      ensures verdict.Parked? ==>
                verdict.attempts == if Hopeless(partition[position]) then 1 else maxTries
      ensures Deduplicated(old(consumed), old(Content()), moves, acts, consumed) && CallsFor(acts, partition[position])
      ensures |acts| <= maxTries && old(consumed) <= consumed
      ensures verdict.Handled? ==> RowFor(partition[position]).Some? && RowFor(partition[position]).value in consumed
      ensures RowFor(partition[position]).Some? && RowFor(partition[position]).value in old(consumed) ==> acts == []
    {
      moves, acts := [], [];
      var attempts := 0;
      while true
        invariant Valid() && Content() == RunFrom(old(Content()), moves) && RunsOn(moves)
        invariant partition == old(partition) && parked == old(parked) && position == old(position) && committed == old(committed)
        invariant 0 <= attempts < maxTries
        invariant Hopeless(partition[position]) ==> attempts == 0
        invariant Deduplicated(old(consumed), old(Content()), moves, acts, consumed) && CallsFor(acts, partition[position])
        invariant |acts| <= attempts && old(consumed) <= consumed
        invariant RowFor(partition[position]).Some? && RowFor(partition[position]).value in old(consumed) ==> acts == []
        decreases maxTries - attempts
      {
        attempts := attempts + 1;
        var failure; ghost var more, moreActs; ghost var before := consumed;
        failure, more, moreActs := ProcessOnce();
        DeduplicatedAppend(old(consumed), old(Content()), moves, acts, before, more, moreActs, consumed);
        moves, acts := moves + more, acts + moreActs;
        if failure.None? {
          return Handled, moves, acts;
        }
        if failure.value == InvalidEnvelope || attempts >= maxTries {
          var stored; ghost var parking;
          stored, parking := RecordFailure();
          SilentMoves(old(consumed), old(Content()), moves, acts, consumed, parking);
          moves := moves + parking;
          if !stored {
            return Cancelled, moves, acts;
          }
          return Parked(attempts), moves, acts;
        }
        var cancelled: bool := *;
        if cancelled {
          return Cancelled, moves, acts;
        }
      }
    }

    /** One turn of the loop: the offset moves past the message only once it is settled. */
    method Turn() returns (running: bool, ghost moves: seq<Move>, ghost acts: seq<Act>)
      requires Valid()
      modifies this
      ensures Valid() && Content() == RunFrom(old(Content()), moves) && RunsOn(moves)
      ensures partition == old(partition) && old(position) <= position <= old(position) + 1
      ensures committed != old(committed) ==> committed == Some(position) && position == old(position) + 1
      ensures Deduplicated(old(consumed), old(Content()), moves, acts, consumed)
      ensures old(position) == |partition| ==> acts == []
      ensures old(position) < |partition| ==> CallsFor(acts, partition[old(position)])
    {
      moves, acts := [], [];
      if position == |partition| {
        return true, moves, acts;
      }
      var verdict;
      verdict, moves, acts := ProcessCurrent();
      if verdict.Cancelled? {
        return false, moves, acts;
      }
      var commitFails: bool := *;
      PassingHandlesNothing(Content(), !commitFails);
      SilentMoves(old(consumed), old(Content()), moves, acts, consumed, [Pass(!commitFails)]);
      moves := moves + [Pass(!commitFails)];
      position := position + 1;
      if !commitFails {
        committed := Some(position);
      }
      return true, moves, acts;
    }

    /** A crash or a rebalance: the next reader starts at the group's offset, or at the end without one. */
    method Resume()
      requires Valid()
      modifies this`position
      ensures Valid() && Content() == Restarted(old(Content()))
    {
      position := if committed.Some? then committed.value else |partition|;
    }

    /** The reaper removes dedup rows at any time. */
    method ReapDedup(rows: set<(StoreId, EventId)>)
      requires Valid()
      modifies this`consumed
      ensures Valid() && consumed == old(consumed) - rows
    {
      consumed := consumed - rows;
    }

    /** The broker appends a message. */
    method Receive(m: Message)
      requires Valid()
      modifies this`partition
      ensures Valid() && Content() == Next(old(Content()), Append(m))
    {
      partition := partition + [m];
    }

    /**
     * Any number of turns, crashes, reaped rows and deliveries, in any order, is a run of the moves above,
     * with one restart for each crash. So the offset passes settled messages only, as long as no crash
     * came when nothing was committed and something was unsettled. And the projector is called for unknown
     * rows only: an event known to one store is handled at most once, and once more for each mark that was
     * lost and each time its row was reaped; once its row is there and stays, it is never handled again.
     */
    method Run(schedule: seq<Event>) returns (ghost moves: seq<Move>, ghost acts: seq<Act>)
      requires Valid()
      modifies this
      ensures Valid() && Content() == RunFrom(old(Content()), moves)
      ensures Restarts(moves) == Crashes(schedule)
      ensures Covered(old(Content())) && SafeMoves(old(Content()), moves) ==> Covered(Content()) && Promise(Content())
      ensures Deduplicated(old(consumed), old(Content()), moves, acts, consumed)
      ensures forall row: Row :: Removals(acts, row) == Reapings(schedule, row)
      ensures forall row: Row :: KnownToOneStore(row) ==>
        && Handlings(old(Content()), moves, row.1) <= 1 + LostMarks(acts, row) + Reapings(schedule, row)
        && (row in old(consumed) && Reapings(schedule, row) == 0 ==> Handlings(old(Content()), moves, row.1) == 0 && Calls(acts, row) == 0)
    {
      moves, acts := [], [];
      for n := 0 to |schedule|
        invariant Valid() && Content() == RunFrom(old(Content()), moves)
        invariant Restarts(moves) == Crashes(schedule[..n])
        invariant Deduplicated(old(consumed), old(Content()), moves, acts, consumed)
        invariant RemovesWhatIsReaped(acts, schedule[..n])
        invariant CallsAreForMessages(acts)
      {
        ghost var more: seq<Move>, moreActs: seq<Act>; ghost var before, was := consumed, Content();
        match schedule[n] {
          case Step =>
            var running;
            running, more, moreActs := Turn();
            RunningOnRestartsNothing(more);
          case Crash =>
            Resume();
            more, moreActs := [Restart], [];
          case Reap(rows) =>
            ReapDedup(rows);
            more, moreActs := [], [Remove(rows)];
          case Deliver(m) =>
            Receive(m);
            more, moreActs := [Append(m)], [];
        }
        assert more != [] && !RunsOn(more) ==> more[1..] == [];
        RestartsAppend(moves, more);
        DeduplicatedAppend(old(consumed), old(Content()), moves, acts, before, more, moreActs, consumed);
        assert schedule[..n + 1][..n] == schedule[..n];
        OneMoreEvent(acts, moreActs, schedule[..n + 1]);
        moves, acts := moves + more, acts + moreActs;
      }
      assert schedule[..|schedule|] == schedule;
      if Covered(old(Content())) && SafeMoves(old(Content()), moves) {
        SafeRunsKeepThePromise(old(Content()), moves);
      }
      forall row: Row | KnownToOneStore(row)
        ensures Handlings(old(Content()), moves, row.1) <= 1 + LostMarks(acts, row) + Reapings(schedule, row)
        ensures row in old(consumed) && Reapings(schedule, row) == 0 ==> Handlings(old(Content()), moves, row.1) == 0 && Calls(acts, row) == 0
      {
        HandledOncePerLoss(old(consumed), acts, row);
      }
    }

    lemma HandledOncePerLoss(known: set<Row>, acts: seq<Act>, row: Row)
      requires Legal(known, acts) && CallsAreForMessages(acts) && KnownToOneStore(row)
      ensures HandlesOfEvent(acts, row.1) <= 1 + LostMarks(acts, row) + Removals(acts, row)
      ensures row in known && Removals(acts, row) == 0 ==> HandlesOfEvent(acts, row.1) == 0 && Calls(acts, row) == 0
    {
      OneStoreKnowsIt(acts, row);
      HandlesAreCountedExactly(known, acts, row);
      if row in known && Removals(acts, row) == 0 { KnownIsNotCalled(known, acts, row); }
    }
  }

  /** How often the schedule reaps this row. */
  function Reapings(schedule: seq<Event>, row: Row): nat {
    if schedule == [] then 0
    else Reapings(schedule[..|schedule| - 1], row) + (var e := schedule[|schedule| - 1]; Bit(e.Reap? && row in e.rows))
  }

  ghost predicate RemovesWhatIsReaped(acts: seq<Act>, schedule: seq<Event>) {
    forall row :: Removals(acts, row) == Reapings(schedule, row)
  }

  lemma OneMoreEvent(acts: seq<Act>, more: seq<Act>, schedule: seq<Event>)
    requires schedule != [] && RemovesWhatIsReaped(acts, schedule[..|schedule| - 1])
    requires var e := schedule[|schedule| - 1]; if e.Reap? then more == [Remove(e.rows)] else forall k :: 0 <= k < |more| ==> more[k].Call?
    ensures RemovesWhatIsReaped(acts + more, schedule)
  {
    forall row ensures Removals(acts + more, row) == Reapings(schedule, row) {
      CountsAppend(acts, more, row);
      if schedule[|schedule| - 1].Reap? { assert more[..0] == []; } else { CallsRemoveNothing(more, row); }
    }
  }

  datatype Event = Step | Crash | Reap(rows: set<(StoreId, EventId)>) | Deliver(message: Message)

  function Restarts(moves: seq<Move>): nat {
    if moves == [] then 0 else Restarts(moves[..|moves| - 1]) + if moves[|moves| - 1].Restart? then 1 else 0
  }

  function Crashes(schedule: seq<Event>): nat {
    if schedule == [] then 0 else Crashes(schedule[..|schedule| - 1]) + if schedule[|schedule| - 1].Crash? then 1 else 0
  }

  lemma {:induction false} RestartsAppend(a: seq<Move>, b: seq<Move>)
    ensures Restarts(a + b) == Restarts(a) + Restarts(b)
    decreases |b|
  {
    if b == [] {
      assert a + b == a;
    } else {
      assert (a + b)[..|a + b| - 1] == a + b[..|b| - 1];
      RestartsAppend(a, b[..|b| - 1]);
    }
  }

  lemma {:induction false} RunningOnRestartsNothing(moves: seq<Move>)
    requires RunsOn(moves)
    ensures Restarts(moves) == 0
  {
    if moves != [] { RunningOnRestartsNothing(moves[..|moves| - 1]); }
  }
}
