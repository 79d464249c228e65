/** The local transactions of cross-shard friendship: begin, apply, confirm, compensate. */
module FriendSaga {
  import opened Prelude

  /** A directed edge: the user whose shard holds the row, and the friend. */
  datatype Pair = Pair(user: int, friend: int) {
    function Reverse(): Pair { Pair(friend, user) }
  }

  datatype EdgeState = Pending | Active | Failed

  /** Identifiers drawn for a saga, and those the backfill made from old friendship rows. */
  datatype EventId = Generated(n: nat) | Legacy(friendshipId: nat, user: int)

  datatype Edge = Edge(state: EdgeState, eventId: EventId)

  datatype Message =
    | Requested(source: int, target: int, eventId: EventId)
    | Applied(source: int, target: int, eventId: EventId)
    | Accepted(inviter: int, accepter: int)

  datatype RelayStatus = Unsent | Sending | Sent | Dead

  datatype OutboxRow = OutboxRow(message: Message, status: RelayStatus)

  type Edges = map<Pair, Edge>

  datatype Tables = Tables(edges: Edges, outbox: map<EventId, OutboxRow>)

  datatype SagaError = InvalidRequest | NoRow | TerminallyFailed | DuplicateKey | NotActive

  predicate ValidRequest(source: int, target: int, eventId: Option<EventId>) {
    source > 0 && target > 0 && source != target && eventId.Some?
  }

  /** Keys of the rows that hold a source_event_id; the unique key allows at most one. */
  function Holders(edges: Edges, e: EventId): set<Pair> { set p | p in edges && edges[p].eventId == e }

  predicate UniqueEvents(edges: Edges) {
    forall p, q :: p in edges && q in edges && edges[p].eventId == edges[q].eventId ==> p == q
  }

  // ---- Begin ----

  /** INSERT a PENDING row; any duplicate key, of the pair or of the event, leaves the table alone. */
  function InsertPending(edges: Edges, p: Pair, e: EventId): Edges {
    if p in edges || Holders(edges, e) != {} then edges else edges[p := Edge(Pending, e)]
  }

  /** Begin: the retry of a pending request reuses the event identifier of the row it finds. */
  function AfterBegin(t: Tables, source: int, target: int, eventId: Option<EventId>): Result<Tables, SagaError> {
    var p := Pair(source, target);
    if !ValidRequest(source, target, eventId) then Err(InvalidRequest)
    else
      var edges := InsertPending(t.edges, p, eventId.value);
      if p !in edges then Err(NoRow)
      else
        match edges[p].state
        case Active => Ok(t)
        case Failed => Err(TerminallyFailed)
        case Pending =>
          var e := edges[p].eventId;
          Ok(Tables(edges, if e in t.outbox then t.outbox else t.outbox[e := OutboxRow(Requested(source, target, e), Unsent)]))
  }

  // ---- Apply ----

  function Activated(edge: Edge): Edge { if edge.state == Pending then edge.(state := Active) else edge }

  /**
   * INSERT an ACTIVE row; on a duplicate key the row it collides with, by pair first and by event
   * otherwise, turns from PENDING to ACTIVE, and any other row stays as it is.
   */
  function UpsertActive(edges: Edges, p: Pair, e: EventId): Edges {
    if p in edges then edges[p := Activated(edges[p])]
    else if Holders(edges, e) != {} then map q | q in edges :: if q in Holders(edges, e) then Activated(edges[q]) else edges[q]
    else edges[p := Edge(Active, e)]
  }

  /** Rows affected above zero: something was inserted or changed. */
  predicate UpsertChanges(edges: Edges, p: Pair, e: EventId) { UpsertActive(edges, p, e) != edges }

  function AfterApply(t: Tables, source: int, target: int, eventId: Option<EventId>, ackId: EventId): Result<Tables, SagaError> {
    if !ValidRequest(source, target, eventId) then Err(InvalidRequest)
    else
      var p := Pair(target, source);
      if !UpsertChanges(t.edges, p, eventId.value) then Ok(t)
      else if ackId in t.outbox then Err(DuplicateKey)
      else Ok(Tables(UpsertActive(t.edges, p, eventId.value),
                     t.outbox[ackId := OutboxRow(Applied(source, target, eventId.value), Unsent)]))
  }

  // ---- Confirm ----

  function AfterConfirm(t: Tables, source: int, target: int, eventId: Option<EventId>, acceptedId: EventId): Result<Tables, SagaError> {
    var p := Pair(source, target);
    if !ValidRequest(source, target, eventId) then Err(InvalidRequest)
    else if p !in t.edges || t.edges[p].eventId != eventId.value then Err(NoRow)
    else if t.edges[p].state == Pending then
      if acceptedId in t.outbox then Err(DuplicateKey)
      else Ok(Tables(t.edges[p := t.edges[p].(state := Active)],
                     t.outbox[acceptedId := OutboxRow(Accepted(target, source), Unsent)]))
    else if t.edges[p].state == Active then Ok(t)
    else Err(NotActive)
  }

  // ---- Compensate ----

  /** PENDING edges whose request can no longer leave the shard. */
  predicate Doomed(t: Tables, p: Pair) {
    && p in t.edges && t.edges[p].state == Pending
    && t.edges[p].eventId in t.outbox && t.outbox[t.edges[p].eventId].status == Dead
  }

  /** The order of a pass: by the time of the last update, then by the row's key. */
  predicate Older(updatedAt: Pair -> int, p: Pair, q: Pair) {
    || updatedAt(p) < updatedAt(q)
    || (updatedAt(p) == updatedAt(q) && (p.user < q.user || (p.user == q.user && p.friend < q.friend)))
  }

  function FailEdges(edges: Edges, chosen: set<Pair>): Edges {
    map p | p in edges :: if p in chosen then edges[p].(state := Failed) else edges[p]
  }

  // ---- The answers, in terms of the stored rows ----

  ghost predicate HeldElsewhere(edges: Edges, e: EventId) { exists q :: q in edges && edges[q].eventId == e }

  /**
   * A request succeeds if and only if it is valid and, after the insert, a PENDING or ACTIVE row of the pair
   * is there; a row that failed for good, and an event that already belongs to another pair, are errors. A
   * pending row has its request in the outbox afterwards, under the row's own event; an active one is left
   * alone.
   */
  lemma BeginAnswersExactly(t: Tables, source: int, target: int, eventId: Option<EventId>)
    ensures var r := AfterBegin(t, source, target, eventId); var p := Pair(source, target);
      && (r == Err(InvalidRequest) <==> source <= 0 || target <= 0 || source == target || eventId.None?)
      && (r == Err(TerminallyFailed) <==> ValidRequest(source, target, eventId) && p in t.edges && t.edges[p].state == Failed)
      && (r == Err(NoRow) <==> ValidRequest(source, target, eventId) && p !in t.edges && HeldElsewhere(t.edges, eventId.value))
      && (r.Ok? <==>
            && ValidRequest(source, target, eventId)
            && (if p in t.edges then t.edges[p].state == Pending || t.edges[p].state == Active
                else !HeldElsewhere(t.edges, eventId.value)))
      && (r.Ok? ==> r.value.edges == if p in t.edges then t.edges else t.edges[p := Edge(Pending, eventId.value)])
      && (r.Ok? ==>
            var e := r.value.edges[p].eventId;
            r.value.outbox == if r.value.edges[p].state == Active || e in t.outbox then t.outbox
                              else t.outbox[e := OutboxRow(Requested(source, target, e), Unsent)])
  {
    if eventId.Some? { HoldersExactly(t.edges, eventId.value); }
  }

  lemma HoldersExactly(edges: Edges, e: EventId)
    ensures Holders(edges, e) != {} <==> HeldElsewhere(edges, e)
    ensures forall q :: q in Holders(edges, e) <==> q in edges && edges[q].eventId == e
  {
    if HeldElsewhere(edges, e) {
      var q :| q in edges && edges[q].eventId == e;
      assert q in Holders(edges, e);
    }
  }

  /** The row an applied request lands on: the pair's own, or else the one that holds its event. */
  ghost predicate LandsOn(edges: Edges, p: Pair, e: EventId, q: Pair) {
    q in edges && (q == p || (p !in edges && edges[q].eventId == e))
  }

  /** No row to land on: the upsert inserts one. */
  ghost predicate Inserts(edges: Edges, p: Pair, e: EventId) { forall q :: !LandsOn(edges, p, e, q) }

  ghost predicate Activates(edges: Edges, p: Pair, e: EventId) {
    exists q :: LandsOn(edges, p, e, q) && edges[q].state == Pending
  }

  lemma UpsertExactly(edges: Edges, p: Pair, e: EventId)
    requires UniqueEvents(edges)
    ensures Inserts(edges, p, e) ==> UpsertActive(edges, p, e) == edges[p := Edge(Active, e)]
    ensures !Inserts(edges, p, e) ==>
      && UpsertActive(edges, p, e).Keys == edges.Keys
      && forall q :: q in edges ==>
           UpsertActive(edges, p, e)[q] ==
             if LandsOn(edges, p, e, q) && edges[q].state == Pending then edges[q].(state := Active) else edges[q]
  {
    HoldersExactly(edges, e);
    if p in edges {
      assert LandsOn(edges, p, e, p);
    } else if HeldElsewhere(edges, e) {
      var q :| q in edges && edges[q].eventId == e;
      assert LandsOn(edges, p, e, q);
    }
  }

  lemma UpsertChangesExactly(edges: Edges, p: Pair, e: EventId)
    requires UniqueEvents(edges)
    ensures UpsertChanges(edges, p, e) <==> Inserts(edges, p, e) || Activates(edges, p, e)
  {
    UpsertExactly(edges, p, e);
    var after := UpsertActive(edges, p, e);
    if Inserts(edges, p, e) {
      assert p !in edges by { assert !LandsOn(edges, p, e, p); }
      assert p in after;
    } else if Activates(edges, p, e) {
      var q :| LandsOn(edges, p, e, q) && edges[q].state == Pending;
      assert after[q] != edges[q];
    } else {
      assert after == edges;
    }
  }

  /**
   * Applying a request on the target's shard makes a new row ACTIVE, turns the PENDING row it lands on into
   * an ACTIVE one, and leaves every other row alone; it is acknowledged in the outbox if and only if it
   * changed a row.
   */
  lemma ApplyAnswersExactly(t: Tables, source: int, target: int, eventId: Option<EventId>, ackId: EventId)
    requires UniqueEvents(t.edges)
    ensures var r := AfterApply(t, source, target, eventId, ackId);
      && (r == Err(InvalidRequest) <==> source <= 0 || target <= 0 || source == target || eventId.None?)
      && (ValidRequest(source, target, eventId) ==> Applies(t, Pair(target, source), eventId.value, ackId, r))
  {
    if ValidRequest(source, target, eventId) {
      UpsertExactly(t.edges, Pair(target, source), eventId.value);
      UpsertChangesExactly(t.edges, Pair(target, source), eventId.value);
    }
  }

  ghost predicate Applies(t: Tables, p: Pair, e: EventId, ackId: EventId, r: Result<Tables, SagaError>) {
    var changes := Inserts(t.edges, p, e) || Activates(t.edges, p, e);
    && (r.Err? <==> changes && ackId in t.outbox) && (r.Err? ==> r.error == DuplicateKey)
    && (r.Ok? ==>
          && r.value.outbox == (if changes then t.outbox[ackId := OutboxRow(Applied(p.friend, p.user, e), Unsent)] else t.outbox)
          && (Inserts(t.edges, p, e) ==> r.value.edges == t.edges[p := Edge(Active, e)])
          && (!Inserts(t.edges, p, e) ==>
                && r.value.edges.Keys == t.edges.Keys
                && forall q :: q in t.edges ==>
                     r.value.edges[q] ==
                       if LandsOn(t.edges, p, e, q) && t.edges[q].state == Pending then t.edges[q].(state := Active) else t.edges[q]))
  }

  /** A confirmation succeeds if and only if the pair's row holds its event and is PENDING, then ACTIVE with one acceptance, or is ACTIVE already. */
  lemma ConfirmAnswersExactly(t: Tables, source: int, target: int, eventId: Option<EventId>, acceptedId: EventId)
    ensures var r := AfterConfirm(t, source, target, eventId, acceptedId); var p := Pair(source, target);
      && (r == Err(InvalidRequest) <==> source <= 0 || target <= 0 || source == target || eventId.None?)
      && (ValidRequest(source, target, eventId) ==>
            var there := p in t.edges && t.edges[p].eventId == eventId.value;
            && (r == Err(NoRow) <==> !there)
            && (there ==>
                  && (r == Err(NotActive) <==> t.edges[p].state == Failed)
                  && (r == Err(DuplicateKey) <==> t.edges[p].state == Pending && acceptedId in t.outbox)
                  && (t.edges[p].state == Active ==> r == Ok(t))
                  && (t.edges[p].state == Pending && acceptedId !in t.outbox ==>
                        r == Ok(Tables(t.edges[p := Edge(Active, eventId.value)],
                                       t.outbox[acceptedId := OutboxRow(Accepted(target, source), Unsent)])))))
  {
  }

  /** The tables of one shard, changed by one transaction at a time. */
  class FriendEdgeSaga {
    var edges: Edges
    var outbox: map<EventId, OutboxRow>

    ghost function Content(): Tables
      reads this
    {
      Tables(edges, outbox)
    }

    constructor ()
      ensures Content() == Tables(map[], map[])
    {
      edges, outbox := map[], map[];
    }

    /** The row that already holds e, if any. */
    method FindHolder(e: EventId) returns (holder: Option<Pair>)
      ensures holder.Some? ==> holder.value in Holders(edges, e)
      ensures holder.None? ==> Holders(edges, e) == {}
    {
      var rest := edges.Keys;
      while rest != {}
        invariant rest <= edges.Keys
        invariant forall p :: p in edges && p !in rest ==> edges[p].eventId != e
        decreases rest
      {
        var p := Pick(rest);
        if edges[p].eventId == e {
          return Some(p);
        }
        rest := rest - {p};
      }
      return None;
    }

    method Begin(source: int, target: int, sourceEventId: Option<EventId>) returns (r: Result<(), SagaError>)
      modifies this
      ensures match AfterBegin(old(Content()), source, target, sourceEventId)
              case Ok(t) => r == Ok(()) && Content() == t
              case Err(e) => r == Err(e) && Content() == old(Content())
      ensures r.Ok? <==>
        && source > 0 && target > 0 && source != target && sourceEventId.Some?
        && (if Pair(source, target) in old(edges) then old(edges)[Pair(source, target)].state != Failed
            else forall q :: q in old(edges) ==> old(edges)[q].eventId != sourceEventId.value)
      ensures r.Ok? ==> Pair(source, target) in edges && (edges[Pair(source, target)].state == Pending || edges[Pair(source, target)].state == Active)
    {
      BeginAnswersExactly(Content(), source, target, sourceEventId);
      if source <= 0 || target <= 0 || source == target || sourceEventId.None? {
        return Err(InvalidRequest);
      }
      var tx := edges;
      var p := Pair(source, target);
      var holder := FindHolder(sourceEventId.value);
      if p !in tx && holder.None? {
        tx := tx[p := Edge(Pending, sourceEventId.value)];
      }
      if p !in tx {
        return Err(NoRow);
      }
      match tx[p].state
      case Active => return Ok(());
      case Failed => return Err(TerminallyFailed);
      case Pending =>
        var id := tx[p].eventId;
        if id !in outbox {
          outbox := outbox[id := OutboxRow(Requested(source, target, id), Unsent)];
        }
        edges := tx;
        return Ok(());
    }

    method ApplyRemote(source: int, target: int, sourceEventId: Option<EventId>, ackId: EventId) returns (r: Result<(), SagaError>)
      requires UniqueEvents(edges)
      modifies this
      ensures match AfterApply(old(Content()), source, target, sourceEventId, ackId)
              case Ok(t) => r == Ok(()) && Content() == t
              case Err(e) => r == Err(e) && Content() == old(Content())
    {
      if source <= 0 || target <= 0 || source == target || sourceEventId.None? {
        return Err(InvalidRequest);
      }
      var p, e := Pair(target, source), sourceEventId.value;
      var row, affected := p, 1;
      var tx := edges;
      if p !in edges {
        var holder := FindHolder(e);
        if holder.Some? {
          row := holder.value;
          assert Holders(edges, e) == {row};
        } else {
          tx := tx[p := Edge(Active, e)];
        }
      }
      if row in edges {
        affected := if edges[row].state == Pending then 2 else 0;
        tx := tx[row := Activated(edges[row])];
      }
      assert tx == UpsertActive(edges, p, e);
      assert affected > 0 <==> tx != edges by {
        if row in edges && affected > 0 { assert tx[row] != edges[row]; }
        if row !in edges { assert p in tx; }
      }
      if affected > 0 {
        if ackId in outbox {
          return Err(DuplicateKey);
        }
        outbox := outbox[ackId := OutboxRow(Applied(source, target, e), Unsent)];
      }
      edges := tx;
      return Ok(());
    }

    method ConfirmSource(source: int, target: int, sourceEventId: Option<EventId>, acceptedId: EventId)
      returns (r: Result<(), SagaError>)
      modifies this
      ensures match AfterConfirm(old(Content()), source, target, sourceEventId, acceptedId)
              case Ok(t) => r == Ok(()) && Content() == t
              case Err(e) => r == Err(e) && Content() == old(Content())
    {
      if source <= 0 || target <= 0 || source == target || sourceEventId.None? {
        return Err(InvalidRequest);
      }
      var p, e := Pair(source, target), sourceEventId.value;
      var changed := p in edges && edges[p].eventId == e && edges[p].state == Pending;
      if !changed {
        if p !in edges || edges[p].eventId != e {
          return Err(NoRow);
        }
        if edges[p].state != Active {
          return Err(NotActive);
        }
        return Ok(());
      }
      if acceptedId in outbox {
        return Err(DuplicateKey);
      }
      edges := edges[p := edges[p].(state := Active)];
      outbox := outbox[acceptedId := OutboxRow(Accepted(target, source), Unsent)];
      return Ok(());
    }

    /** The doomed edge that comes first among the candidates, if there is one. */
    method FirstDoomed(candidates: set<Pair>, updatedAt: Pair -> int) returns (best: Option<Pair>)
      requires candidates <= edges.Keys
      ensures best.Some? ==> best.value in candidates && Doomed(Content(), best.value)
      ensures best.Some? ==> forall q :: q in candidates && q != best.value && Doomed(Content(), q) ==> Older(updatedAt, best.value, q)
      ensures best.None? ==> forall q :: q in candidates ==> !Doomed(Content(), q)
    {
      best := None;
      var rest := candidates;
      while rest != {}
        invariant rest <= candidates
        invariant best.Some? ==> best.value in candidates && Doomed(Content(), best.value)
        invariant best.Some? ==> forall q :: q in candidates && q !in rest && q != best.value && Doomed(Content(), q) ==> Older(updatedAt, best.value, q)
        invariant best.None? ==> forall q :: q in candidates && q !in rest ==> !Doomed(Content(), q)
        decreases rest
      {
        var p := Pick(rest);
        rest := rest - {p};
        if edges[p].state == Pending && edges[p].eventId in outbox && outbox[edges[p].eventId].status == Dead {
          assert Doomed(Content(), p);
          if best.None? || Older(updatedAt, p, best.value) {
            best := Some(p);
          }
        }
      }
    }

    /**
     * One bounded pass: at most limit doomed edges fail, those longest untouched first, and all of them when
     * there are no more than that.
     */
    method CompensateDeadRequests(limit: int, updatedAt: Pair -> int) returns (r: Result<int, SagaError>, ghost chosen: set<Pair>)
      modifies this`edges
      ensures limit <= 0 ==> r == Err(InvalidRequest) && chosen == {}
      ensures limit > 0 ==> r == Ok(|chosen|) && |chosen| <= limit
      ensures forall p :: p in chosen ==> Doomed(old(Content()), p)
      ensures forall p :: p in chosen ==>
        && p in old(edges) && old(edges)[p].state == Pending
        && old(edges)[p].eventId in outbox && outbox[old(edges)[p].eventId].status == Dead
        && p in edges && edges[p] == old(edges)[p].(state := Failed)
      ensures forall p :: p in old(edges) && p !in chosen ==> p in edges && edges[p] == old(edges)[p]
      ensures limit > 0 && |chosen| < limit ==> forall p :: Doomed(old(Content()), p) ==> p in chosen
      ensures limit > 0 ==> forall p, q :: p in chosen && Doomed(old(Content()), q) && q !in chosen ==>
        && Older(updatedAt, p, q) && updatedAt(p) <= updatedAt(q)
        && (updatedAt(p) == updatedAt(q) ==> p.user < q.user || (p.user == q.user && p.friend < q.friend))
      ensures Content() == old(Content()).(edges := FailEdges(old(edges), chosen))
    {
      chosen := {};
      if limit <= 0 {
        assert FailEdges(edges, {}) == edges;
        return Err(InvalidRequest), chosen;
      }
      ghost var t := Content();
      var n := 0;
      var rest := edges.Keys;
      assert FailEdges(t.edges, chosen) == edges;
      while n < limit
        invariant rest <= t.edges.Keys && n == |chosen| <= limit && chosen !! rest
        invariant forall p :: p in chosen ==> Doomed(t, p)
        invariant forall p :: Doomed(t, p) && p !in rest ==> p in chosen
        invariant forall p, q :: p in chosen && Doomed(t, q) && q in rest ==> Older(updatedAt, p, q)
        invariant edges == FailEdges(t.edges, chosen) && outbox == t.outbox
        decreases limit - n
      {
        assert forall p :: p in rest ==> edges[p] == t.edges[p];
        assert forall p :: p in rest ==> (Doomed(Content(), p) <==> Doomed(t, p));
        var first := FirstDoomed(rest, updatedAt);
        if first.None? {
          return Ok(n), chosen;
        }
        var p := first.value;
        rest := rest - {p};
        edges := edges[p := edges[p].(state := Failed)];
        assert edges == FailEdges(t.edges, chosen + {p});
        chosen := chosen + {p};
        n := n + 1;
      }
      return Ok(n), chosen;
    }
  }
}
