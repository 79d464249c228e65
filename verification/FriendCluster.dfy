/**
 * Cross-shard friendship over every run: relays claim rows, publish them late, twice or never, and crash;
 * what the broker took is delivered any number of times, in any order; requests cross.
 */
module FriendCluster {
  import opened Prelude
  import opened FriendSaga

  /** An outbox row as a relay read it when it claimed it. */
  datatype Claim = Claim(worker: int, shard: nat, id: EventId, message: Message)

  datatype World = World(
    shards: seq<Tables>,
    /** What relays remember, and what the broker ever accepted. */
    held: set<Claim>,
    broker: set<Message>,
    /** History: what each outbox row carries, also after it is gone; messages in the order they were first
        written, identifiers drawn so far, who began what. */
    written: map<EventId, Message>,
    emitted: seq<Message>,
    drawn: set<nat>,
    begunBy: map<EventId, Pair>,
    backfilled: set<Pair>)

  datatype Step =
    | AcceptInvite(source: int, target: int, candidate: nat)
    | Deliver(message: Message, newId: nat)
    | ClaimRow(worker: int, shard: nat, id: EventId)
    | Reclaim(shard: nat, id: EventId)
    | Publish(claim: Claim)
    | MarkSent(claim: Claim)
    | MarkFailed(claim: Claim, dead: bool)
    | Forget(claim: Claim)
    | Reap(shard: nat, id: EventId)
    | Compensate(shard: nat, chosen: set<Pair>)

  function Home(w: World, user: int): (i: nat)
    requires |w.shards| > 0
    ensures i < |w.shards|
  {
    user % |w.shards|
  }

  function EdgesOf(w: World, user: int): Edges
    requires |w.shards| > 0
  {
    w.shards[Home(w, user)].edges
  }

  predicate HasEdge(w: World, p: Pair)
    requires |w.shards| > 0
  {
    p in EdgesOf(w, p.user)
  }

  function EdgeAt(w: World, p: Pair): Edge
    requires |w.shards| > 0 && HasEdge(w, p)
  {
    EdgesOf(w, p.user)[p]
  }

  predicate IsActive(w: World, p: Pair)
    requires |w.shards| > 0
  {
    HasEdge(w, p) && EdgeAt(w, p).state == Active
  }

  /** What the backfill leaves behind: both directions of each old friendship, ACTIVE on their own shards. */
  ghost predicate Backfilled(w: World) {
    && |w.shards| > 0 && w.emitted == [] && w.drawn == {} && w.begunBy == map[]
    && w.held == {} && w.broker == {} && w.written == map[]
    && (forall i, p :: 0 <= i < |w.shards| && p in w.shards[i].edges ==>
          p.user > 0 && p.friend > 0 && Home(w, p.user) == i && Home(w, p.friend) != i
          && w.shards[i].edges[p].state == Active && w.shards[i].edges[p].eventId.Legacy?
          && p in w.backfilled)
    && (forall p :: p in w.backfilled ==> HasEdge(w, p) && HasEdge(w, p.Reverse()) && p.Reverse() in w.backfilled)
    && (forall i :: 0 <= i < |w.shards| ==> w.shards[i].outbox == map[] && UniqueEvents(w.shards[i].edges))
  }

  function Put(w: World, i: nat, t: Tables): World
    requires i < |w.shards|
  {
    w.(shards := w.shards[i := t])
  }

  // ---- The steps ----

  predicate CanBegin(w: World, source: int, target: int, candidate: nat) {
    && |w.shards| > 0 && candidate !in w.drawn
    && Home(w, source) != Home(w, target)
    && AfterBegin(w.shards[Home(w, source)], source, target, Some(Generated(candidate))).Ok?
  }

  /** Only users on different shards go through the saga, and every call draws a new identifier. */
  function AfterAcceptInvite(w: World, source: int, target: int, candidate: nat): World {
    if !CanBegin(w, source, target, candidate) then w
    else
      var i := Home(w, source);
      var p := Pair(source, target);
      var t := AfterBegin(w.shards[i], source, target, Some(Generated(candidate))).value;
      var begun := p !in w.shards[i].edges;
      var e := t.edges[p].eventId;
      Put(w, i, t).(
        written := if t.outbox != w.shards[i].outbox then w.written[e := Requested(source, target, e)] else w.written,
        drawn := w.drawn + {candidate},
        begunBy := if begun then w.begunBy[Generated(candidate) := p] else w.begunBy,
        emitted := if begun then w.emitted + [Requested(source, target, Generated(candidate))] else w.emitted)
  }

  function AfterDeliver(w: World, m: Message, newId: nat): World {
    if |w.shards| == 0 || m !in w.broker || newId in w.drawn then w
    else
      match m
      case Requested(source, target, e) =>
        var i := Home(w, target);
        var r := AfterApply(w.shards[i], source, target, Some(e), Generated(newId));
        if r.Err? then w
        else
          var changed := r.value.edges != w.shards[i].edges;
          Put(w, i, r.value).(drawn := w.drawn + {newId},
            written := if changed then w.written[Generated(newId) := Applied(source, target, e)] else w.written,
            emitted := if changed then w.emitted + [Applied(source, target, e)] else w.emitted)
      case Applied(source, target, e) =>
        var i := Home(w, source);
        var r := AfterConfirm(w.shards[i], source, target, Some(e), Generated(newId));
        if r.Err? then w
        else
          var changed := r.value.edges != w.shards[i].edges;
          Put(w, i, r.value).(drawn := w.drawn + {newId},
            written := if changed then w.written[Generated(newId) := Accepted(target, source)] else w.written,
            emitted := if changed then w.emitted + [Accepted(target, source)] else w.emitted)
      case Accepted(_, _) => w
  }

  function PutStatus(w: World, i: nat, id: EventId, status: RelayStatus): World
    requires i < |w.shards| && id in w.shards[i].outbox
  {
    Put(w, i, w.shards[i].(outbox := w.shards[i].outbox[id := w.shards[i].outbox[id].(status := status)]))
  }

  predicate HasRow(w: World, i: nat, id: EventId, status: RelayStatus) {
    i < |w.shards| && id in w.shards[i].outbox && w.shards[i].outbox[id].status == status
  }

  function AfterClaim(w: World, worker: int, i: nat, id: EventId): World {
    if !HasRow(w, i, id, Unsent) then w
    else PutStatus(w, i, id, Sending).(held := w.held + {Claim(worker, i, id, w.shards[i].outbox[id].message)})
  }

  /** The lock of a claim has expired. */
  function AfterReclaim(w: World, i: nat, id: EventId): World {
    if !HasRow(w, i, id, Sending) then w else PutStatus(w, i, id, Unsent)
  }

  /** The message travels with the claim; whether the relay hears of the success is another matter. */
  function AfterPublish(w: World, c: Claim): World {
    if c !in w.held then w else w.(broker := w.broker + {c.message})
  }

  /** Marks go by key alone, also when another relay has the row by now. */
  function AfterMark(w: World, c: Claim, status: RelayStatus): World {
    if c !in w.held || c.shard >= |w.shards| || c.id !in w.shards[c.shard].outbox then w
    else if status == Sent && c.message !in w.broker then w
    else PutStatus(w, c.shard, c.id, status)
  }

  function AfterReap(w: World, i: nat, id: EventId): World {
    if i >= |w.shards| || id !in w.shards[i].outbox || w.shards[i].outbox[id].status != Sent then w
    else Put(w, i, w.shards[i].(outbox := w.shards[i].outbox - {id}))
  }

  function AfterCompensate(w: World, i: nat, chosen: set<Pair>): World {
    if i >= |w.shards| || exists p :: p in chosen && !Doomed(w.shards[i], p) then w
    else Put(w, i, w.shards[i].(edges := FailEdges(w.shards[i].edges, chosen)))
  }

  function Next(w: World, s: Step): World {
    match s
    case AcceptInvite(source, target, candidate) => AfterAcceptInvite(w, source, target, candidate)
    case Deliver(m, newId) => AfterDeliver(w, m, newId)
    case ClaimRow(worker, i, id) => AfterClaim(w, worker, i, id)
    case Reclaim(i, id) => AfterReclaim(w, i, id)
    case Publish(c) => AfterPublish(w, c)
    case MarkSent(c) => AfterMark(w, c, Sent)
    case MarkFailed(c, dead) => AfterMark(w, c, if dead then Dead else Unsent)
    case Forget(c) => w.(held := w.held - {c})
    case Reap(i, id) => AfterReap(w, i, id)
    case Compensate(i, chosen) => AfterCompensate(w, i, chosen)
  }

  function Run(start: World, steps: seq<Step>): World {
    if steps == [] then start else Next(Run(start, steps[..|steps| - 1]), steps[|steps| - 1])
  }

  // ---- Counting announcements ----

  function CountAcks(ms: seq<Message>, source: int, target: int): nat {
    if ms == [] then 0
    else
      var m := ms[|ms| - 1];
      CountAcks(ms[..|ms| - 1], source, target)
        + if m.Applied? && m.source == source && m.target == target then 1 else 0
  }

  function CountAccepted(ms: seq<Message>, inviter: int, accepter: int): nat {
    if ms == [] then 0
    else CountAccepted(ms[..|ms| - 1], inviter, accepter) + if ms[|ms| - 1] == Accepted(inviter, accepter) then 1 else 0
  }

  lemma CountsPush(ms: seq<Message>, m: Message, a: int, b: int)
    ensures CountAcks(ms + [m], a, b) == CountAcks(ms, a, b) + (if m.Applied? && m.source == a && m.target == b then 1 else 0)
    ensures CountAccepted(ms + [m], a, b) == CountAccepted(ms, a, b) + (if m == Accepted(a, b) then 1 else 0)
  {
    assert (ms + [m])[..|ms|] == ms;
  }

  lemma {:induction false} NoAckNoCount(ms: seq<Message>, a: int, b: int)
    ensures CountAcks(ms, a, b) > 0 <==> exists e :: Applied(a, b, e) in ms
    ensures CountAccepted(ms, a, b) > 0 <==> Accepted(a, b) in ms
  {
    if ms != [] {
      var front, m := ms[..|ms| - 1], ms[|ms| - 1];
      NoAckNoCount(front, a, b);
      assert ms == front + [m];
      if CountAcks(front, a, b) > 0 {
        var e :| Applied(a, b, e) in front;
        assert Applied(a, b, e) in ms;
      }
      if m.Applied? && m.source == a && m.target == b {
        assert Applied(a, b, m.eventId) in ms;
      }
    }
  }

  // ---- The invariant ----

  /** Rows sit on their user's shard, name two shards, and hold the identifier of whoever began the request. */
  ghost predicate RowSound(w: World, i: nat, p: Pair)
    requires i < |w.shards| && p in w.shards[i].edges
  {
    var edge := w.shards[i].edges[p];
    && p.user > 0 && p.friend > 0 && Home(w, p.user) == i && Home(w, p.friend) != i
    && (edge.eventId.Legacy? ==> p in w.backfilled && edge.state == Active)
    && (edge.eventId.Generated? ==>
          && edge.eventId.n in w.drawn && edge.eventId in w.begunBy
          && (w.begunBy[edge.eventId] == p || (w.begunBy[edge.eventId] == p.Reverse() && edge.state == Active)))
    && (edge.state == Active ==> HasEdge(w, p.Reverse()))
  }

  /** A request names a row that exists; an acknowledgement also finds the reverse row ACTIVE. */
  ghost predicate MessageSound(w: World, m: Message)
    requires |w.shards| > 0
  {
    match m
    case Requested(s, t, e) => e.Generated? && e in w.begunBy && w.begunBy[e] == Pair(s, t) && HasEdge(w, Pair(s, t)) && EdgeAt(w, Pair(s, t)).eventId == e
    case Applied(s, t, e) => Requested(s, t, e) in w.broker && Requested(s, t, e) in w.emitted && IsActive(w, Pair(t, s))
    case Accepted(inviter, accepter) => exists e :: Applied(accepter, inviter, e) in w.emitted
  }

  /** Each activation of an edge was announced exactly once: by an acknowledgement or by friend_accepted. */
  ghost predicate Announced(w: World, p: Pair)
    requires |w.shards| > 0
  {
    CountAcks(w.emitted, p.friend, p.user) + CountAccepted(w.emitted, p.friend, p.user)
      == if IsActive(w, p) && p !in w.backfilled then 1 else 0
  }

  /** A PENDING edge whose reverse is ACTIVE has its acknowledgement written. */
  ghost predicate AckWritten(w: World, p: Pair)
    requires |w.shards| > 0
  {
    HasEdge(w, p) && EdgeAt(w, p).state == Pending && IsActive(w, p.Reverse()) ==>
      Applied(p.user, p.friend, EdgeAt(w, p).eventId) in w.emitted
  }

  ghost predicate Sound(w: World) {
    && |w.shards| > 0
    && (forall i, p :: 0 <= i < |w.shards| && p in w.shards[i].edges ==> RowSound(w, i, p))
    && (forall m :: m in w.emitted ==> MessageSound(w, m))
    && (forall p {:trigger Announced(w, p)} :: Announced(w, p))
    && (forall p {:trigger AckWritten(w, p)} :: AckWritten(w, p))
    && (forall p :: p in w.backfilled ==> IsActive(w, p) && p.Reverse() in w.backfilled)
    && (forall e :: e in w.begunBy ==> e.Generated? && e.n in w.drawn)
  }

  // ---- Steps keep the invariant ----

  lemma StartIsSound(w: World)
    requires Backfilled(w)
    ensures Sound(w)
  {
    forall i, p | 0 <= i < |w.shards| && p in w.shards[i].edges ensures RowSound(w, i, p) {
      assert p in w.backfilled;
    }
    forall p ensures Announced(w, p) {
      if IsActive(w, p) { assert p in w.shards[Home(w, p.user)].edges; }
    }
    forall p ensures AckWritten(w, p) {
      if HasEdge(w, p) { assert p in w.shards[Home(w, p.user)].edges; }
    }
    forall p | p in w.backfilled ensures IsActive(w, p) {
      assert p in w.shards[Home(w, p.user)].edges;
    }
  }

  /** Rows are never deleted, never change their event, and never leave ACTIVE. */
  ghost predicate EdgesGrow(w: World, v: World) {
    && |w.shards| == |v.shards| && |w.shards| > 0
    && forall p :: HasEdge(w, p) ==>
         HasEdge(v, p) && EdgeAt(v, p).eventId == EdgeAt(w, p).eventId && (IsActive(w, p) ==> IsActive(v, p))
  }

  ghost predicate HistoryGrows(w: World, v: World) {
    && w.drawn <= v.drawn && v.backfilled == w.backfilled
    && (forall e :: e in w.begunBy ==> e in v.begunBy && v.begunBy[e] == w.begunBy[e])
    && (forall m :: m in w.emitted ==> m in v.emitted)
    && w.broker <= v.broker
  }

  lemma WrittenIsSound(w: World, m: Message)
    requires Sound(w) && m in w.emitted
    ensures MessageSound(w, m)
  {
  }

  lemma MessagesStaySound(w: World, v: World)
    requires Sound(w) && EdgesGrow(w, v) && HistoryGrows(w, v)
    ensures forall m :: m in w.emitted ==> MessageSound(v, m)
  {
    forall m | m in w.emitted ensures MessageSound(v, m) {
      assert MessageSound(w, m);
      if m.Accepted? {
        var e :| Applied(m.accepter, m.inviter, e) in w.emitted;
        assert Applied(m.accepter, m.inviter, e) in v.emitted;
      }
    }
  }

  /** Rows that did not change stay sound. */
  lemma RowStaysSound(w: World, v: World, i: nat, p: Pair)
    requires Sound(w) && EdgesGrow(w, v) && HistoryGrows(w, v)
    requires i < |w.shards| && p in w.shards[i].edges && p in v.shards[i].edges && v.shards[i].edges[p] == w.shards[i].edges[p]
    ensures RowSound(v, i, p)
  {
    assert RowSound(w, i, p);
  }

  /** One edge was written; the rest of the tables' edges are as before. */
  ghost predicate OneEdge(w: World, v: World, p: Pair, edge: Edge) {
    && |w.shards| == |v.shards| && |w.shards| > 0
    && (forall i :: 0 <= i < |w.shards| ==>
          v.shards[i].edges == if i == Home(w, p.user) then w.shards[i].edges[p := edge] else w.shards[i].edges)
    && v.backfilled == w.backfilled
  }

  lemma OneEdgeElsewhere(w: World, v: World, p: Pair, edge: Edge, q: Pair)
    requires OneEdge(w, v, p, edge)
    ensures q != p ==> (HasEdge(v, q) <==> HasEdge(w, q)) && (HasEdge(w, q) ==> EdgeAt(v, q) == EdgeAt(w, q))
    ensures HasEdge(v, p) && EdgeAt(v, p) == edge
  {
  }

  lemma OneEdgeGrows(w: World, v: World, p: Pair, edge: Edge)
    requires OneEdge(w, v, p, edge)
    requires HasEdge(w, p) ==> EdgeAt(w, p).eventId == edge.eventId && (EdgeAt(w, p).state == Active ==> edge.state == Active)
    ensures EdgesGrow(w, v)
  {
    forall q | HasEdge(w, q)
      ensures HasEdge(v, q) && EdgeAt(v, q).eventId == EdgeAt(w, q).eventId && (IsActive(w, q) ==> IsActive(v, q))
    {
      OneEdgeElsewhere(w, v, p, edge, q);
    }
  }

  /** The shape of every step that writes one edge and announces it with one message. */
  ghost predicate Writes(w: World, v: World, p: Pair, edge: Edge, m: Message) {
    && OneEdge(w, v, p, edge) && HistoryGrows(w, v) && v.emitted == w.emitted + [m]
    && (forall e :: e in v.begunBy ==> e.Generated? && e.n in v.drawn)
    && (HasEdge(w, p) ==> EdgeAt(w, p).eventId == edge.eventId && EdgeAt(w, p).state != Active)
  }

  lemma WrittenRowsAreSound(w: World, v: World, p: Pair, edge: Edge, m: Message, i: nat, q: Pair)
    requires Sound(w) && Writes(w, v, p, edge, m) && RowSound(v, Home(v, p.user), p)
    requires i < |v.shards| && q in v.shards[i].edges
    ensures RowSound(v, i, q)
  {
    OneEdgeGrows(w, v, p, edge);
    if q != p || i != Home(w, p.user) {
      assert q in w.shards[i].edges && v.shards[i].edges[q] == w.shards[i].edges[q];
      RowStaysSound(w, v, i, q);
    }
  }

  lemma AnnouncedElsewhere(w: World, v: World, p: Pair, edge: Edge, m: Message, q: Pair)
    requires Sound(w) && Writes(w, v, p, edge, m) && q != p
    requires !(m.Applied? && m.source == q.friend && m.target == q.user) && m != Accepted(q.friend, q.user)
    ensures Announced(v, q)
  {
    assert Announced(w, q);
    CountsPush(w.emitted, m, q.friend, q.user);
    OneEdgeElsewhere(w, v, p, edge, q);
  }

  lemma AckWrittenElsewhere(w: World, v: World, p: Pair, edge: Edge, m: Message, q: Pair)
    requires Sound(w) && Writes(w, v, p, edge, m) && q != p && q.Reverse() != p
    ensures AckWritten(v, q)
  {
    assert AckWritten(w, q);
    OneEdgeElsewhere(w, v, p, edge, q);
    OneEdgeElsewhere(w, v, p, edge, q.Reverse());
  }

  lemma WritesKeepsSound(w: World, v: World, p: Pair, edge: Edge, m: Message)
    requires Sound(w) && Writes(w, v, p, edge, m)
    requires RowSound(v, Home(v, p.user), p) && MessageSound(v, m)
    requires Announced(v, p) && AckWritten(v, p) && AckWritten(v, p.Reverse())
    requires forall q :: q != p ==> !(m.Applied? && m.source == q.friend && m.target == q.user) && m != Accepted(q.friend, q.user)
    ensures Sound(v)
  {
    OneEdgeGrows(w, v, p, edge);
    MessagesStaySound(w, v);
    forall i, q | 0 <= i < |v.shards| && q in v.shards[i].edges ensures RowSound(v, i, q) {
      WrittenRowsAreSound(w, v, p, edge, m, i, q);
    }
    forall q ensures Announced(v, q) {
      if q != p { AnnouncedElsewhere(w, v, p, edge, m, q); }
    }
    forall q ensures AckWritten(v, q) {
      assert q.Reverse() == p ==> q == p.Reverse();
      if q != p && q.Reverse() != p { AckWrittenElsewhere(w, v, p, edge, m, q); }
    }
    forall q | q in v.backfilled ensures IsActive(v, q) {
      assert IsActive(w, q);
    }
  }

  lemma AcceptInviteKeepsSound(w: World, source: int, target: int, candidate: nat)
    requires Sound(w)
    ensures Sound(AfterAcceptInvite(w, source, target, candidate))
  {
    var v := AfterAcceptInvite(w, source, target, candidate);
    if CanBegin(w, source, target, candidate) {
      var p := Pair(source, target);
      if HasEdge(w, p) {
        RetryKeepsEdges(w, source, target, candidate);
        SameEdgesStaySound(w, v);
      } else {
        BeginWrites(w, source, target, candidate);
        NewRequestKeepsSound(w, v, p, Generated(candidate));
      }
    }
  }

  lemma RetryKeepsEdges(w: World, source: int, target: int, candidate: nat)
    requires CanBegin(w, source, target, candidate) && HasEdge(w, Pair(source, target))
    ensures var v := AfterAcceptInvite(w, source, target, candidate);
      && |v.shards| == |w.shards| && v.emitted == w.emitted && v.begunBy == w.begunBy && v.backfilled == w.backfilled
      && v.broker == w.broker
      && w.drawn <= v.drawn
      && (forall i :: 0 <= i < |w.shards| ==> v.shards[i].edges == w.shards[i].edges)
  {
  }

  lemma BeginWrites(w: World, source: int, target: int, candidate: nat)
    requires Sound(w) && CanBegin(w, source, target, candidate) && !HasEdge(w, Pair(source, target))
    ensures Holders(EdgesOf(w, source), Generated(candidate)) == {}
    ensures var v := AfterAcceptInvite(w, source, target, candidate); var e := Generated(candidate);
      && Writes(w, v, Pair(source, target), Edge(Pending, e), Requested(source, target, e))
      && v.begunBy == w.begunBy[e := Pair(source, target)] && v.drawn == w.drawn + {candidate}
  {
    var i := Home(w, source);
    var e := Generated(candidate);
    forall q | q in w.shards[i].edges ensures w.shards[i].edges[q].eventId != e { assert RowSound(w, i, q); }
    assert Holders(w.shards[i].edges, e) == {};
  }

  lemma NewRequestKeepsSound(w: World, v: World, p: Pair, e: EventId)
    requires Sound(w) && Writes(w, v, p, Edge(Pending, e), Requested(p.user, p.friend, e)) && !HasEdge(w, p)
    requires p.user > 0 && p.friend > 0 && Home(w, p.user) != Home(w, p.friend)
    requires e.Generated? && e in v.begunBy && v.begunBy[e] == p
    ensures Sound(v)
  {
    var edge, m := Edge(Pending, e), Requested(p.user, p.friend, e);
    OneEdgeElsewhere(w, v, p, edge, p.Reverse());
    if HasEdge(w, p.Reverse()) { assert RowSound(w, Home(w, p.friend), p.Reverse()); }
    assert Announced(w, p);
    CountsPush(w.emitted, m, p.friend, p.user);
    WritesKeepsSound(w, v, p, edge, m);
  }

  /** Steps that leave every edge and all messages alone. */
  lemma SameEdgesStaySound(w: World, v: World)
    requires Sound(w) && |v.shards| == |w.shards| && v.emitted == w.emitted && v.begunBy == w.begunBy
    requires w.drawn <= v.drawn && v.backfilled == w.backfilled && w.broker <= v.broker
    requires forall i :: 0 <= i < |w.shards| ==> v.shards[i].edges == w.shards[i].edges
    ensures Sound(v)
  {
    assert EdgesGrow(w, v) && HistoryGrows(w, v);
    MessagesStaySound(w, v);
    forall i, q | 0 <= i < |v.shards| && q in v.shards[i].edges ensures RowSound(v, i, q) { RowStaysSound(w, v, i, q); }
    forall q ensures Announced(v, q) { assert Announced(w, q); }
    forall q ensures AckWritten(v, q) { assert AckWritten(w, q); }
    forall q | q in v.backfilled ensures IsActive(v, q) { assert IsActive(w, q); }
  }

  lemma ApplyKeepsSound(w: World, source: int, target: int, e: EventId, newId: nat)
    requires Sound(w) && Wired(w) && Requested(source, target, e) in w.broker
    ensures Sound(AfterDeliver(w, Requested(source, target, e), newId))
  {
    var v := AfterDeliver(w, Requested(source, target, e), newId);
    var i := Home(w, target);
    var p := Pair(target, source);
    var edges := w.shards[i].edges;
    if v != w {
      if UpsertActive(edges, p, e) == edges {
        SameEdgesStaySound(w, v);
      } else {
        ApplicationWrites(w, v, source, target, e, newId);
        ApplicationKeepsSound(w, v, p, v.shards[i].edges[p], e);
      }
    }
  }

  /** No other row of the target's shard holds the event, so the upsert touches the reverse edge alone. */
  lemma ApplicationWrites(w: World, v: World, source: int, target: int, e: EventId, newId: nat)
    requires Sound(w) && Requested(source, target, e) in w.broker && Requested(source, target, e) in w.emitted
    requires v == AfterDeliver(w, Requested(source, target, e), newId) && v != w
    requires UpsertActive(EdgesOf(w, target), Pair(target, source), e) != EdgesOf(w, target)
    ensures var p := Pair(target, source);
      && |v.shards| == |w.shards| && HasEdge(v, p) && EdgeAt(v, p).state == Active
      && Writes(w, v, p, EdgeAt(v, p), Applied(source, target, e)) && v.begunBy == w.begunBy
      && (!HasEdge(w, p) ==> EdgeAt(v, p).eventId == e)
  {
    var i := Home(w, target);
    var p := Pair(target, source);
    var edges := w.shards[i].edges;
    assert MessageSound(w, Requested(source, target, e));
    assert RowSound(w, Home(w, source), p.Reverse());
    forall q | q in edges && edges[q].eventId == e ensures q == p { assert RowSound(w, i, q); }
    assert p !in edges ==> Holders(edges, e) == {};
    var edge := UpsertActive(edges, p, e)[p];
    assert edge.state == Active && UpsertActive(edges, p, e) == edges[p := edge];
    assert v.shards == w.shards[i := v.shards[i]] && v.shards[i].edges == edges[p := edge];
  }

  lemma ApplicationKeepsSound(w: World, v: World, p: Pair, edge: Edge, e: EventId)
    requires Sound(w) && Requested(p.friend, p.user, e) in w.broker && Requested(p.friend, p.user, e) in w.emitted
    requires Writes(w, v, p, edge, Applied(p.friend, p.user, e)) && v.begunBy == w.begunBy
    requires edge.state == Active && (!HasEdge(w, p) ==> edge.eventId == e)
    ensures Sound(v)
  {
    var m := Applied(p.friend, p.user, e);
    assert MessageSound(w, Requested(p.friend, p.user, e));
    assert RowSound(w, Home(w, p.friend), p.Reverse());
    if HasEdge(w, p) { assert RowSound(w, Home(w, p.user), p); }
    OneEdgeElsewhere(w, v, p, edge, p.Reverse());
    assert Announced(w, p) && AckWritten(w, p.Reverse());
    CountsPush(w.emitted, m, p.friend, p.user);
    assert m in v.emitted && Requested(p.friend, p.user, e) in v.emitted;
    WritesKeepsSound(w, v, p, edge, m);
  }

  lemma ConfirmKeepsSound(w: World, source: int, target: int, e: EventId, newId: nat)
    requires Sound(w) && Wired(w) && Applied(source, target, e) in w.broker
    ensures Sound(AfterDeliver(w, Applied(source, target, e), newId))
  {
    var v := AfterDeliver(w, Applied(source, target, e), newId);
    var p := Pair(source, target);
    if v != w {
      if EdgeAt(w, p).state == Pending {
        ConfirmationWrites(w, v, source, target, e, newId);
        ConfirmationKeepsSound(w, v, p, e);
      } else {
        SameEdgesStaySound(w, v);
      }
    }
  }

  lemma ConfirmationWrites(w: World, v: World, source: int, target: int, e: EventId, newId: nat)
    requires |w.shards| > 0 && v == AfterDeliver(w, Applied(source, target, e), newId) && v != w
    requires HasEdge(w, Pair(source, target)) && EdgeAt(w, Pair(source, target)).state == Pending
    requires forall k :: k in w.begunBy ==> k.Generated? && k.n in w.drawn
    ensures EdgeAt(w, Pair(source, target)) == Edge(Pending, e)
    ensures Writes(w, v, Pair(source, target), Edge(Active, e), Accepted(target, source))
  {
    var p := Pair(source, target);
    assert v.shards[Home(w, source)].edges == w.shards[Home(w, source)].edges[p := Edge(Active, e)];
    assert v.shards[Home(w, source)].edges[p] != EdgeAt(w, p);
  }

  lemma ConfirmationKeepsSound(w: World, v: World, p: Pair, e: EventId)
    requires Sound(w) && Applied(p.user, p.friend, e) in w.emitted
    requires HasEdge(w, p) && EdgeAt(w, p) == Edge(Pending, e)
    requires Writes(w, v, p, Edge(Active, e), Accepted(p.friend, p.user))
    ensures Sound(v)
  {
    var edge, m := Edge(Active, e), Accepted(p.friend, p.user);
    assert MessageSound(w, Applied(p.user, p.friend, e));
    assert RowSound(w, Home(w, p.user), p);
    OneEdgeElsewhere(w, v, p, edge, p.Reverse());
    assert Announced(w, p) && AckWritten(w, p.Reverse());
    CountsPush(w.emitted, m, p.friend, p.user);
    assert m in v.emitted && Applied(p.user, p.friend, e) in v.emitted;
    WritesKeepsSound(w, v, p, edge, m);
  }

  /** Some PENDING edges turned FAILED; nothing else about the world changed. */
  ghost predicate OnlyFails(w: World, v: World) {
    && |w.shards| == |v.shards| && |w.shards| > 0
    && v.emitted == w.emitted && v.drawn == w.drawn && v.begunBy == w.begunBy && v.backfilled == w.backfilled
    && v.held == w.held && v.broker == w.broker && v.written == w.written
    && (forall i :: 0 <= i < |w.shards| ==> v.shards[i].edges.Keys == w.shards[i].edges.Keys && v.shards[i].outbox == w.shards[i].outbox)
    && (forall i, q :: 0 <= i < |w.shards| && q in w.shards[i].edges ==>
          var before, after := w.shards[i].edges[q], v.shards[i].edges[q];
          after == before || (before.state == Pending && after == before.(state := Failed)))
  }

  lemma CompensateOnlyFails(w: World, i: nat, chosen: set<Pair>)
    requires |w.shards| > 0
    ensures OnlyFails(w, AfterCompensate(w, i, chosen))
  {
    if i < |w.shards| && forall p :: p in chosen ==> Doomed(w.shards[i], p) {
      var edges := w.shards[i].edges;
      assert FailEdges(edges, chosen).Keys == edges.Keys;
    }
  }

  lemma FailedElsewhere(w: World, v: World, q: Pair)
    requires OnlyFails(w, v)
    ensures HasEdge(v, q) <==> HasEdge(w, q)
    ensures IsActive(v, q) <==> IsActive(w, q)
    ensures HasEdge(w, q) ==> EdgeAt(v, q).eventId == EdgeAt(w, q).eventId
    ensures HasEdge(w, q) && EdgeAt(v, q).state == Pending ==> EdgeAt(w, q).state == Pending
  {
  }

  lemma FailingGrows(w: World, v: World)
    requires OnlyFails(w, v)
    ensures EdgesGrow(w, v) && HistoryGrows(w, v)
  {
    forall p | HasEdge(w, p)
      ensures HasEdge(v, p) && EdgeAt(v, p).eventId == EdgeAt(w, p).eventId && (IsActive(w, p) ==> IsActive(v, p))
    {
      FailedElsewhere(w, v, p);
    }
  }

  lemma FailedRowStaysSound(w: World, v: World, i: nat, q: Pair)
    requires Sound(w) && OnlyFails(w, v) && i < |v.shards| && q in v.shards[i].edges
    ensures RowSound(v, i, q)
  {
    assert RowSound(w, i, q);
    FailedElsewhere(w, v, q);
    FailedElsewhere(w, v, q.Reverse());
  }

  lemma FailingKeepsSound(w: World, v: World)
    requires Sound(w) && OnlyFails(w, v)
    ensures Sound(v)
  {
    FailingGrows(w, v);
    MessagesStaySound(w, v);
    forall i, q | 0 <= i < |v.shards| && q in v.shards[i].edges ensures RowSound(v, i, q) { FailedRowStaysSound(w, v, i, q); }
    forall q ensures Announced(v, q) {
      assert Announced(w, q);
      FailedElsewhere(w, v, q);
    }
    forall q ensures AckWritten(v, q) {
      assert AckWritten(w, q);
      FailedElsewhere(w, v, q);
      FailedElsewhere(w, v, q.Reverse());
    }
    forall q | q in v.backfilled ensures IsActive(v, q) {
      assert IsActive(w, q);
      FailedElsewhere(w, v, q);
    }
  }

  lemma CompensateKeepsSound(w: World, i: nat, chosen: set<Pair>)
    requires Sound(w)
    ensures Sound(AfterCompensate(w, i, chosen))
  {
    CompensateOnlyFails(w, i, chosen);
    FailingKeepsSound(w, AfterCompensate(w, i, chosen));
  }

  lemma StepKeepsSound(w: World, s: Step)
    requires Sound(w) && Wired(w)
    ensures Sound(Next(w, s))
  {
    match s
    case AcceptInvite(source, target, candidate) => AcceptInviteKeepsSound(w, source, target, candidate);
    case Deliver(m, newId) =>
      if m in w.broker {
        match m
        case Requested(source, target, e) => ApplyKeepsSound(w, source, target, e, newId);
        case Applied(source, target, e) => ConfirmKeepsSound(w, source, target, e, newId);
        case Accepted(_, _) =>
      }
    case Compensate(i, chosen) => CompensateKeepsSound(w, i, chosen);
    case _ =>
      RelayStepsChangeStatuses(w, s);
      SameEdgesStaySound(w, Next(w, s));
  }

  predicate RelayStep(s: Step) { !s.AcceptInvite? && !s.Deliver? && !s.Compensate? }

  /** Relays and the reaper leave edges and history alone; rows only change status, or go once they were sent. */
  ghost predicate OnlyStatuses(w: World, v: World) {
    && |v.shards| == |w.shards| && v.emitted == w.emitted && v.begunBy == w.begunBy && v.drawn == w.drawn
    && v.backfilled == w.backfilled && v.written == w.written && w.broker <= v.broker
    && (forall i :: 0 <= i < |w.shards| ==> v.shards[i].edges == w.shards[i].edges)
    && (forall i, id :: 0 <= i < |w.shards| && id in v.shards[i].outbox ==>
          id in w.shards[i].outbox && v.shards[i].outbox[id].message == w.shards[i].outbox[id].message)
  }

  lemma PutStatusOnly(w: World, i: nat, id: EventId, status: RelayStatus)
    requires i < |w.shards| && id in w.shards[i].outbox
    ensures OnlyStatuses(w, PutStatus(w, i, id, status))
  {
  }

  lemma ReapOnly(w: World, i: nat, id: EventId)
    requires |w.shards| > 0
    ensures OnlyStatuses(w, AfterReap(w, i, id))
  {
  }

  lemma MarkOnly(w: World, c: Claim, status: RelayStatus)
    requires |w.shards| > 0
    ensures OnlyStatuses(w, AfterMark(w, c, status))
  {
    if c.shard < |w.shards| && c.id in w.shards[c.shard].outbox { PutStatusOnly(w, c.shard, c.id, status); }
  }

  lemma ClaimOnly(w: World, worker: int, i: nat, id: EventId)
    requires |w.shards| > 0
    ensures OnlyStatuses(w, AfterClaim(w, worker, i, id)) && OnlyStatuses(w, AfterReclaim(w, i, id))
  {
    if i < |w.shards| && id in w.shards[i].outbox {
      PutStatusOnly(w, i, id, Sending);
      PutStatusOnly(w, i, id, Unsent);
    }
  }

  lemma RelayStepsChangeStatuses(w: World, s: Step)
    requires |w.shards| > 0 && RelayStep(s)
    ensures OnlyStatuses(w, Next(w, s))
  {
    match s
    case ClaimRow(worker, i, id) => ClaimOnly(w, worker, i, id);
    case Reclaim(i, id) => ClaimOnly(w, 0, i, id);
    case MarkSent(c) => MarkOnly(w, c, Sent);
    case MarkFailed(c, dead) => MarkOnly(w, c, if dead then Dead else Unsent);
    case Reap(i, id) => ReapOnly(w, i, id);
    case Publish(c) =>
    case Forget(c) =>
  }

  // ---- What the wires hold ----

  predicate Carries(w: World, id: EventId, m: Message) { id in w.written && w.written[id] == m }

  /** A request's row is keyed by its own event, every other row by an identifier drawn for it. */
  ghost predicate RowWritten(w: World, id: EventId)
    requires id in w.written
  {
    var m := w.written[id];
    && id.Generated? && id.n in w.drawn && m in w.emitted
    && (if m.Requested? then m.eventId == id else id !in w.begunBy)
  }

  /** Rows and claims carry what was written under their key; a row marked as sent was taken by the broker. */
  predicate RowsCarry(w: World, i: nat)
    requires i < |w.shards|
  {
    forall id :: id in w.shards[i].outbox ==>
      Carries(w, id, w.shards[i].outbox[id].message)
      && (w.shards[i].outbox[id].status == Sent ==> w.shards[i].outbox[id].message in w.broker)
      && (w.shards[i].outbox[id].message.Requested? ==> i == Home(w, w.shards[i].outbox[id].message.source))
  }

  ghost predicate Wired(w: World) {
    && |w.shards| > 0
    && (forall id :: id in w.written ==> RowWritten(w, id))
    && (forall i :: 0 <= i < |w.shards| ==> RowsCarry(w, i))
    && (forall c :: c in w.held ==> Carries(w, c.id, c.message))
    && (forall m :: m in w.broker ==> m in w.emitted)
    && (forall e :: e in w.begunBy ==> e.Generated? && e.n in w.drawn && Requested(w.begunBy[e].user, w.begunBy[e].friend, e) in w.emitted)
  }

  lemma RelayStepsStayWired(w: World, s: Step)
    requires Wired(w) && RelayStep(s)
    ensures Wired(Next(w, s))
  {
    var v := Next(w, s);
    RelayStepsChangeStatuses(w, s);
    forall id | id in v.written ensures RowWritten(v, id) { assert RowWritten(w, id); }
    forall i | 0 <= i < |v.shards| ensures RowsCarry(v, i) {
      assert RowsCarry(w, i);
      SentWasTaken(w, s, i);
    }
    HeldCarries(w, s);
    BrokerWasWritten(w, s);
  }

  /** Only a message that the broker took is marked as sent. */
  lemma SentWasTaken(w: World, s: Step, i: nat)
    requires Wired(w) && RelayStep(s) && i < |w.shards| == |Next(w, s).shards| && RowsCarry(w, i)
    ensures forall id :: id in Next(w, s).shards[i].outbox && Next(w, s).shards[i].outbox[id].status == Sent ==>
              Next(w, s).shards[i].outbox[id].message in Next(w, s).broker
  {
  }

  lemma HeldCarries(w: World, s: Step)
    requires Wired(w) && RelayStep(s)
    ensures forall c :: c in Next(w, s).held ==> Carries(Next(w, s), c.id, c.message)
  {
    if s.ClaimRow? && s.shard < |w.shards| { assert RowsCarry(w, s.shard); }
  }

  lemma BrokerWasWritten(w: World, s: Step)
    requires Wired(w) && RelayStep(s)
    ensures forall m :: m in Next(w, s).broker ==> m in Next(w, s).emitted
  {
    if s.Publish? && s.claim in w.held { assert RowWritten(w, s.claim.id); }
  }

  /** One transaction added at most one row, for a message that is written by now. */
  ghost predicate AddsRow(w: World, v: World, i: nat, id: EventId, m: Message) {
    && i < |w.shards| == |v.shards| && v.held == w.held && v.broker == w.broker
    && v.shards[i].outbox == w.shards[i].outbox[id := OutboxRow(m, Unsent)]
    && (forall j :: 0 <= j < |w.shards| && j != i ==> v.shards[j].outbox == w.shards[j].outbox)
    && v.written == w.written[id := m]
  }

  ghost predicate AddsNoRow(w: World, v: World) {
    && |w.shards| == |v.shards| && v.held == w.held && v.broker == w.broker && v.written == w.written
    && (forall j :: 0 <= j < |w.shards| ==> v.shards[j].outbox == w.shards[j].outbox)
  }

  /** Events begun later have identifiers drawn later, and their requests are written. */
  ghost predicate HistoryWired(w: World, v: World) {
    && w.drawn <= v.drawn && (forall m :: m in w.emitted ==> m in v.emitted)
    && (forall e :: e in w.begunBy ==> e in v.begunBy && v.begunBy[e] == w.begunBy[e])
    && (forall e :: e in v.begunBy && e !in w.begunBy ==>
          e.Generated? && e.n in v.drawn && e.n !in w.drawn && Requested(v.begunBy[e].user, v.begunBy[e].friend, e) in v.emitted)
  }

  lemma AddingNoRowStaysWired(w: World, v: World)
    requires Wired(w) && AddsNoRow(w, v) && HistoryWired(w, v)
    ensures Wired(v)
  {
    forall id | id in v.written ensures RowWritten(v, id) { assert RowWritten(w, id); }
    forall i | 0 <= i < |v.shards| ensures RowsCarry(v, i) { assert RowsCarry(w, i); }
  }

  lemma AddingARowStaysWired(w: World, v: World, i: nat, id: EventId, m: Message)
    requires Wired(w) && AddsRow(w, v, i, id, m) && HistoryWired(w, v) && RowWritten(v, id)
    requires (id in w.written ==> w.written[id] == m) && (m.Requested? ==> i == Home(w, m.source))
    ensures Wired(v)
  {
    forall k | k in v.written ensures RowWritten(v, k) {
      if k != id { assert RowWritten(w, k); }
    }
    forall j | 0 <= j < |v.shards| ensures RowsCarry(v, j) { assert RowsCarry(w, j); }
  }

  lemma AcceptInviteStaysWired(w: World, source: int, target: int, candidate: nat)
    requires Sound(w) && Wired(w)
    ensures Wired(AfterAcceptInvite(w, source, target, candidate))
  {
    var v := AfterAcceptInvite(w, source, target, candidate);
    if CanBegin(w, source, target, candidate) {
      var p := Pair(source, target);
      if HasEdge(w, p) {
        RetryKeepsEdges(w, source, target, candidate);
        RowAgain(w, source, target, candidate);
        var e := EdgeAt(w, p).eventId;
        if AddsNoRow(w, v) { AddingNoRowStaysWired(w, v); } else { AddingARowStaysWired(w, v, Home(w, source), e, Requested(source, target, e)); }
      } else {
        BeginWrites(w, source, target, candidate);
        FirstRow(w, source, target, candidate);
        AddingARowStaysWired(w, v, Home(w, source), Generated(candidate), Requested(source, target, Generated(candidate)));
      }
    }
  }

  /** The row of request e stands in its shard's outbox, and what was written under e is this request. */
  ghost predicate AddsRequest(w: World, v: World, source: int, target: int, e: EventId)
    requires |w.shards| > 0
  {
    var m := Requested(source, target, e);
    AddsRow(w, v, Home(w, source), e, m) && RowWritten(v, e) && (e in w.written ==> w.written[e] == m)
  }

  /** A request's row, written for the first time. */
  lemma FirstRow(w: World, source: int, target: int, candidate: nat)
    requires Sound(w) && Wired(w) && CanBegin(w, source, target, candidate) && !HasEdge(w, Pair(source, target))
    ensures AddsRequest(w, AfterAcceptInvite(w, source, target, candidate), source, target, Generated(candidate))
  {
    BeginWrites(w, source, target, candidate);
    BeginRow(w, source, target, candidate);
  }

  lemma BeginRow(w: World, source: int, target: int, candidate: nat)
    requires Wired(w) && CanBegin(w, source, target, candidate) && !HasEdge(w, Pair(source, target))
    requires Holders(EdgesOf(w, source), Generated(candidate)) == {}
    ensures AddsRow(w, AfterAcceptInvite(w, source, target, candidate), Home(w, source), Generated(candidate),
                    Requested(source, target, Generated(candidate)))
    ensures Generated(candidate) !in w.written
  {
    var i := Home(w, source);
    assert RowsCarry(w, i);
    assert Generated(candidate) !in w.written;
    assert Generated(candidate) !in w.shards[i].outbox;
  }

  lemma RetryRow(w: World, source: int, target: int, candidate: nat)
    requires CanBegin(w, source, target, candidate) && HasEdge(w, Pair(source, target))
    ensures var v := AfterAcceptInvite(w, source, target, candidate); var edge := EdgeAt(w, Pair(source, target));
      || AddsNoRow(w, v)
      || (edge.state == Pending && v.drawn == w.drawn + {candidate} && v.emitted == w.emitted && v.begunBy == w.begunBy
          && AddsRow(w, v, Home(w, source), edge.eventId, Requested(source, target, edge.eventId)))
  {
    var v := AfterAcceptInvite(w, source, target, candidate);
    var i := Home(w, source);
    assert InsertPending(w.shards[i].edges, Pair(source, target), Generated(candidate)) == w.shards[i].edges;
    if v.shards[i].outbox == w.shards[i].outbox { assert AddsNoRow(w, v); }
  }

  /** A request's row, written again after the reaper took it, or still there. */
  lemma RowAgain(w: World, source: int, target: int, candidate: nat)
    requires Sound(w) && Wired(w) && CanBegin(w, source, target, candidate) && HasEdge(w, Pair(source, target))
    ensures var v := AfterAcceptInvite(w, source, target, candidate); var e := EdgeAt(w, Pair(source, target)).eventId;
      AddsNoRow(w, v) || AddsRequest(w, v, source, target, e)
  {
    RetryRow(w, source, target, candidate);
    PendingRequestIsWritten(w, Pair(source, target));
  }

  /** The request of a PENDING edge is written, and nothing else is written under its event. */
  lemma PendingRequestIsWritten(w: World, p: Pair)
    requires Sound(w) && Wired(w) && HasEdge(w, p)
    ensures var e := EdgeAt(w, p).eventId;
      EdgeAt(w, p).state == Pending ==>
        && e.Generated? && e.n in w.drawn && Requested(p.user, p.friend, e) in w.emitted
        && (e in w.written ==> w.written[e] == Requested(p.user, p.friend, e))
  {
    assert RowSound(w, Home(w, p.user), p);
    var e := EdgeAt(w, p).eventId;
    if EdgeAt(w, p).state == Pending && e in w.written { RequestsAreWrittenOnce(w, e); }
  }

  lemma RequestsAreWrittenOnce(w: World, e: EventId)
    requires Sound(w) && Wired(w) && e in w.begunBy && e in w.written
    ensures w.written[e] == Requested(w.begunBy[e].user, w.begunBy[e].friend, e)
  {
    assert RowWritten(w, e);
    assert MessageSound(w, w.written[e]);
  }

  lemma DeliverStaysWired(w: World, m: Message, newId: nat)
    requires Sound(w) && Wired(w)
    ensures Wired(AfterDeliver(w, m, newId))
  {
    var v := AfterDeliver(w, m, newId);
    if v != w {
      var i := if m.Requested? then Home(w, m.target) else Home(w, m.source);
      if v.shards[i].edges == w.shards[i].edges {
        DeliveryAddsNoRow(w, m, newId, i);
        AddingNoRowStaysWired(w, v);
      } else {
        var written := if m.Requested? then Applied(m.source, m.target, m.eventId) else Accepted(m.target, m.source);
        DeliveryAddsRow(w, m, newId, i, written);
        AddingARowStaysWired(w, v, i, Generated(newId), written);
      }
    }
  }

  lemma DeliveryAddsNoRow(w: World, m: Message, newId: nat, i: nat)
    requires |w.shards| > 0 && AfterDeliver(w, m, newId) != w && i < |w.shards|
    requires i == if m.Requested? then Home(w, m.target) else Home(w, m.source)
    requires AfterDeliver(w, m, newId).shards[i].edges == w.shards[i].edges
    ensures AddsNoRow(w, AfterDeliver(w, m, newId)) && HistoryWired(w, AfterDeliver(w, m, newId))
  {
  }

  lemma ApplicationAddsRow(w: World, source: int, target: int, e: EventId, newId: nat)
    requires Wired(w) && newId !in w.drawn
    requires var v := AfterDeliver(w, Requested(source, target, e), newId);
      v != w && v.shards[Home(w, target)].edges != w.shards[Home(w, target)].edges
    ensures var v := AfterDeliver(w, Requested(source, target, e), newId); var id := Generated(newId); var m := Applied(source, target, e);
      AddsRow(w, v, Home(w, target), id, m) && v.drawn == w.drawn + {newId} && v.emitted == w.emitted + [m] && v.begunBy == w.begunBy
  {
  }

  lemma ConfirmationAddsRow(w: World, source: int, target: int, e: EventId, newId: nat)
    requires Wired(w) && newId !in w.drawn
    requires var v := AfterDeliver(w, Applied(source, target, e), newId);
      v != w && v.shards[Home(w, source)].edges != w.shards[Home(w, source)].edges
    ensures var v := AfterDeliver(w, Applied(source, target, e), newId); var id := Generated(newId); var m := Accepted(target, source);
      AddsRow(w, v, Home(w, source), id, m) && v.drawn == w.drawn + {newId} && v.emitted == w.emitted + [m] && v.begunBy == w.begunBy
  {
  }

  lemma NewRowIsWritten(w: World, v: World, i: nat, newId: nat, m: Message)
    requires Wired(w) && newId !in w.drawn && AddsRow(w, v, i, Generated(newId), m) && !m.Requested?
    requires v.drawn == w.drawn + {newId} && v.emitted == w.emitted + [m] && v.begunBy == w.begunBy
    ensures HistoryWired(w, v) && Generated(newId) !in w.written && RowWritten(v, Generated(newId))
  {
    assert m in v.emitted;
  }

  lemma DeliveryAddsRow(w: World, m: Message, newId: nat, i: nat, written: Message)
    requires Sound(w) && Wired(w) && AfterDeliver(w, m, newId) != w && i < |w.shards|
    requires i == if m.Requested? then Home(w, m.target) else Home(w, m.source)
    requires written == if m.Requested? then Applied(m.source, m.target, m.eventId) else Accepted(m.target, m.source)
    requires AfterDeliver(w, m, newId).shards[i].edges != w.shards[i].edges
    ensures var v := AfterDeliver(w, m, newId); var id := Generated(newId);
      AddsRow(w, v, i, id, written) && HistoryWired(w, v) && id !in w.written && RowWritten(v, id)
  {
    match m
    case Requested(source, target, e) => ApplicationAddsRow(w, source, target, e, newId);
    case Applied(source, target, e) => ConfirmationAddsRow(w, source, target, e, newId);
    NewRowIsWritten(w, AfterDeliver(w, m, newId), i, newId, written);
  }

  lemma StepStaysWired(w: World, s: Step)
    requires Sound(w) && Wired(w)
    ensures Wired(Next(w, s))
  {
    match s
    case AcceptInvite(source, target, candidate) => AcceptInviteStaysWired(w, source, target, candidate);
    case Deliver(m, newId) => DeliverStaysWired(w, m, newId);
    case Compensate(i, chosen) =>
      CompensateOnlyFails(w, i, chosen);
      AddingNoRowStaysWired(w, AfterCompensate(w, i, chosen));
    case _ => RelayStepsStayWired(w, s);
  }

  ghost predicate Good(w: World) { Sound(w) && Wired(w) }

  lemma {:induction false} RunIsSound(start: World, steps: seq<Step>)
    requires Backfilled(start)
    ensures Good(Run(start, steps))
  {
    if steps == [] {
      StartIsSound(start);
    } else {
      var w := Run(start, steps[..|steps| - 1]);
      RunIsSound(start, steps[..|steps| - 1]);
      StepKeepsSound(w, steps[|steps| - 1]);
      StepStaysWired(w, steps[|steps| - 1]);
    }
  }

  // ---- The theorems ----

  predicate ConfirmedBy(w: World, p: Pair) { Accepted(p.friend, p.user) in w.emitted }

  lemma {:induction false} RunGrows(start: World, steps: seq<Step>, later: seq<Step>)
    requires Backfilled(start)
    ensures Sound(Run(start, steps)) && Sound(Run(start, steps + later))
    ensures EdgesGrow(Run(start, steps), Run(start, steps + later))
    ensures forall m :: m in Run(start, steps).emitted ==> m in Run(start, steps + later).emitted
    decreases |later|
  {
    RunIsSound(start, steps);
    RunIsSound(start, steps + later);
    if later == [] {
      assert steps + later == steps;
    } else {
      var front := later[..|later| - 1];
      RunGrows(start, steps, front);
      assert (steps + later)[..|steps + later| - 1] == steps + front;
      StepGrows(Run(start, steps + front), later[|later| - 1]);
    }
  }

  /** Steps that touch no edge and send nothing. */
  lemma SameEdgesGrow(w: World, v: World)
    requires |w.shards| > 0 && |v.shards| == |w.shards|
    requires forall i :: 0 <= i < |w.shards| ==> v.shards[i].edges == w.shards[i].edges
    ensures EdgesGrow(w, v)
  {
    forall p | HasEdge(w, p)
      ensures HasEdge(v, p) && EdgeAt(v, p).eventId == EdgeAt(w, p).eventId && (IsActive(w, p) ==> IsActive(v, p))
    {
      assert v.shards[Home(w, p.user)].edges == w.shards[Home(w, p.user)].edges;
    }
  }

  lemma AcceptInviteGrows(w: World, source: int, target: int, candidate: nat)
    requires Sound(w)
    ensures EdgesGrow(w, AfterAcceptInvite(w, source, target, candidate))
    ensures forall m :: m in w.emitted ==> m in AfterAcceptInvite(w, source, target, candidate).emitted
  {
    var v := AfterAcceptInvite(w, source, target, candidate);
    if CanBegin(w, source, target, candidate) {
      if HasEdge(w, Pair(source, target)) {
        RetryKeepsEdges(w, source, target, candidate);
        SameEdgesGrow(w, v);
      } else {
        BeginWrites(w, source, target, candidate);
        OneEdgeGrows(w, v, Pair(source, target), Edge(Pending, Generated(candidate)));
      }
    }
  }

  lemma StepGrows(w: World, s: Step)
    requires Sound(w)
    ensures EdgesGrow(w, Next(w, s))
    ensures forall m :: m in w.emitted ==> m in Next(w, s).emitted
  {
    match s
    case AcceptInvite(source, target, candidate) => AcceptInviteGrows(w, source, target, candidate);
    case Deliver(m, newId) => DeliverGrows(w, m, newId);
    case Compensate(i, chosen) =>
      CompensateOnlyFails(w, i, chosen);
      FailingGrows(w, AfterCompensate(w, i, chosen));
    case _ =>
      RelayStepsChangeStatuses(w, s);
      SameEdgesGrow(w, Next(w, s));
  }

  lemma DeliverGrows(w: World, m: Message, newId: nat)
    requires |w.shards| > 0
    ensures EdgesGrow(w, AfterDeliver(w, m, newId))
    ensures forall n :: n in w.emitted ==> n in AfterDeliver(w, m, newId).emitted
  {
    match m
    case Requested(source, target, e) =>
      var edges := w.shards[Home(w, target)].edges;
      forall q | q in edges
        ensures var after := UpsertActive(edges, Pair(target, source), e);
          q in after && after[q].eventId == edges[q].eventId && (edges[q].state == Active ==> after[q].state == Active)
      {
      }
    case Applied(source, target, e) =>
    case Accepted(_, _) =>
  }

  /**
   * An edge activated by confirmation has an ACTIVE reverse edge, and both stay ACTIVE whatever is
   * delivered, compensated or requested afterwards.
   */
  lemma ConfirmedFriendshipIsMutualForever(start: World, steps: seq<Step>, later: seq<Step>, p: Pair)
    requires Backfilled(start) && ConfirmedBy(Run(start, steps), p)
    ensures var v := Run(start, steps + later);
      && |v.shards| > 0
      && IsActive(v, p) && IsActive(v, p.Reverse())
  {
    RunGrows(start, steps, later);
    var w := Run(start, steps);
    assert MessageSound(w, Accepted(p.friend, p.user));
    var e :| Applied(p.user, p.friend, e) in w.emitted;
    assert MessageSound(w, Applied(p.user, p.friend, e));
    assert Announced(w, p);
    NoAckNoCount(w.emitted, p.friend, p.user);
  }

  /**
   * A PENDING edge whose reverse is ACTIVE already had its acknowledgement written, and one delivery of it,
   * once the broker has it, makes the friendship mutual.
   */
  lemma PendingWithActiveReverseCanFinish(start: World, steps: seq<Step>, p: Pair, newId: nat)
    requires Backfilled(start)
    requires var w := Run(start, steps); |w.shards| > 0 && HasEdge(w, p) && EdgeAt(w, p).state == Pending && IsActive(w, p.Reverse())
    requires newId !in Run(start, steps).drawn
    ensures var w := Run(start, steps); var ack := Applied(p.user, p.friend, EdgeAt(w, p).eventId);
      && ack in w.emitted
      && |AfterDeliver(w, ack, newId).shards| > 0
      && (ack in w.broker ==> IsActive(AfterDeliver(w, ack, newId), p) && IsActive(AfterDeliver(w, ack, newId), p.Reverse()))
  {
    RunIsSound(start, steps);
    PendingCanFinish(Run(start, steps), p, newId);
  }

  lemma PendingCanFinish(w: World, p: Pair, newId: nat)
    requires Good(w) && HasEdge(w, p) && EdgeAt(w, p).state == Pending && IsActive(w, p.Reverse()) && newId !in w.drawn
    ensures var ack := Applied(p.user, p.friend, EdgeAt(w, p).eventId); var v := AfterDeliver(w, ack, newId);
      && ack in w.emitted && |v.shards| > 0
      && (ack in w.broker ==> IsActive(v, p) && IsActive(v, p.Reverse()))
  {
    var e := EdgeAt(w, p).eventId;
    assert AckWritten(w, p);
    assert RowSound(w, Home(w, p.user), p);
    FreshIdsHaveNoRow(w, Home(w, p.user), newId);
    if Applied(p.user, p.friend, e) in w.broker { AckCompletes(w, p, e, newId); }
  }

  lemma FreshIdsHaveNoRow(w: World, i: nat, newId: nat)
    requires Wired(w) && newId !in w.drawn && i < |w.shards|
    ensures Generated(newId) !in w.shards[i].outbox
  {
    assert RowsCarry(w, i);
  }

  lemma AckCompletes(w: World, p: Pair, e: EventId, newId: nat)
    requires |w.shards| > 0 && HasEdge(w, p) && EdgeAt(w, p) == Edge(Pending, e) && IsActive(w, p.Reverse())
    requires p.user > 0 && p.friend > 0 && p.user != p.friend && Applied(p.user, p.friend, e) in w.broker
    requires newId !in w.drawn && Generated(newId) !in w.shards[Home(w, p.user)].outbox
    ensures var v := AfterDeliver(w, Applied(p.user, p.friend, e), newId);
      |v.shards| > 0 && IsActive(v, p) && IsActive(v, p.Reverse())
  {
    var v := AfterDeliver(w, Applied(p.user, p.friend, e), newId);
    assert OneEdge(w, v, p, Edge(Active, e));
    OneEdgeElsewhere(w, v, p, Edge(Active, e), p.Reverse());
  }

  lemma AnnouncedOnce(w: World, p: Pair)
    requires Sound(w) && p !in w.backfilled && p.Reverse() !in w.backfilled
    ensures
      var acks := CountAcks(w.emitted, p.user, p.friend);
      var reverseAcks := CountAcks(w.emitted, p.friend, p.user);
      var accepted := CountAccepted(w.emitted, p.friend, p.user) + CountAccepted(w.emitted, p.user, p.friend);
      && acks <= 1 && reverseAcks <= 1 && accepted <= 1
      && acks + reverseAcks + accepted == (if IsActive(w, p) then 1 else 0) + (if IsActive(w, p.Reverse()) then 1 else 0)
      && (IsActive(w, p) && IsActive(w, p.Reverse()) ==> (accepted == 0 <==> acks == 1 && reverseAcks == 1))
  {
    assert Announced(w, p) && Announced(w, p.Reverse());
    AcceptedWasAcknowledged(w, p.friend, p.user);
    AcceptedWasAcknowledged(w, p.user, p.friend);
  }

  /** friend_accepted is published only after the acknowledgement of that request. */
  lemma AcceptedWasAcknowledged(w: World, inviter: int, accepter: int)
    requires Sound(w)
    ensures CountAccepted(w.emitted, inviter, accepter) > 0 ==> CountAcks(w.emitted, accepter, inviter) > 0
  {
    NoAckNoCount(w.emitted, inviter, accepter);
    NoAckNoCount(w.emitted, accepter, inviter);
    if Accepted(inviter, accepter) in w.emitted { WrittenIsSound(w, Accepted(inviter, accepter)); }
  }

  /**
   * Every activation is announced exactly once, by one acknowledgement or by one friend_accepted. So a
   * directed request is acknowledged at most once and a pair publishes friend_accepted at most once;
   * it publishes none exactly when its two edges were both activated by acknowledged requests.
   */
  lemma ActivationsAreAnnouncedOnce(start: World, steps: seq<Step>, p: Pair)
    requires Backfilled(start) && p !in start.backfilled
    ensures var w := Run(start, steps);
      var acks := CountAcks(w.emitted, p.user, p.friend);
      var reverseAcks := CountAcks(w.emitted, p.friend, p.user);
      var accepted := CountAccepted(w.emitted, p.friend, p.user) + CountAccepted(w.emitted, p.user, p.friend);
      && |w.shards| > 0
      && acks <= 1 && reverseAcks <= 1 && accepted <= 1
      && acks + reverseAcks + accepted == (if IsActive(w, p) then 1 else 0) + (if IsActive(w, p.Reverse()) then 1 else 0)
      && (IsActive(w, p) && IsActive(w, p.Reverse()) ==> (accepted == 0 <==> acks == 1 && reverseAcks == 1))
  {
    RunIsSound(start, steps);
    BackfillStays(start, steps);
    var w := Run(start, steps);
    assert p !in w.backfilled && p.Reverse() !in w.backfilled;
    AnnouncedOnce(w, p);
  }

  lemma {:induction false} BackfillStays(start: World, steps: seq<Step>)
    ensures Run(start, steps).backfilled == start.backfilled
  {
    if steps != [] { BackfillStays(start, steps[..|steps| - 1]); }
  }

  /** An ACTIVE edge's reverse always exists: it is ACTIVE, still PENDING, or was compensated. */
  lemma ActiveEdgeHasAReverse(start: World, steps: seq<Step>, p: Pair)
    requires Backfilled(start) && |Run(start, steps).shards| > 0 && IsActive(Run(start, steps), p)
    ensures HasEdge(Run(start, steps), p.Reverse())
  {
    RunIsSound(start, steps);
    var w := Run(start, steps);
    assert RowSound(w, Home(w, p.user), p);
  }
}
